/** `download_shopping_cart`: walk the requesting user's cart rows, walk each
    cart recipe's ingredient quantities, fold them into a dictionary keyed by
    ingredient name holding `[running total, unit]`, and emit one
    `name,total,unit` line per key in the dictionary's insertion order.

    The specification is stated on the stream of entries the two nested loops
    visit (`CartEntries`): per name the sum of the amounts (`Total`), the unit
    of the last entry (`LastUnit`), and the names in order of first
    appearance (`Names`). The lemmas then relate these to the tables: the
    total is the sum over the quantity rows of the cart's recipes, and with
    unique ingredient names the unit is the ingredient's own unit. */
module ShoppingList {
  import opened Rows
  import opened Schema

  /** One quantity row seen through its ingredient. */
  datatype Entry = Entry(name: string, amount: int, unit: string)

  /** One `name,total,unit` line of `cart.txt`. */
  datatype Line = Line(name: string, total: int, unit: string)

  /** The `[running total, unit]` value the dictionary holds per name. */
  datatype Slot = Slot(total: int, unit: string)

  /** Every quantity row points at an existing ingredient row. */
  ghost predicate Resolved(quantities: seq<Row<IngredientQuantity>>, ingredients: seq<Row<Ingredient>>)
  {
    forall q | q in quantities :: q.val.ingredient in Ids(ingredients)
  }

  /** `quantity.ingredient`: the row the foreign key names. */
  function IngredientOf(ingredients: seq<Row<Ingredient>>, id: Id): (ing: Ingredient)
    requires id in Ids(ingredients)
    ensures Row(id, ing) in ingredients
  {
    if ingredients[0].id == id then ingredients[0].val
    else
      assert id in Ids(ingredients[1..]) by {
        var r :| r in ingredients && r.id == id;
        assert r != ingredients[0];
        assert ingredients == [ingredients[0]] + ingredients[1..];
      }
      IngredientOf(ingredients[1..], id)
  }

  function EntryOf(ingredients: seq<Row<Ingredient>>, q: Row<IngredientQuantity>): Entry
    requires q.val.ingredient in Ids(ingredients)
  {
    var ing := IngredientOf(ingredients, q.val.ingredient);
    Entry(ing.name, q.val.amount, ing.measurementUnit)
  }

  /** The rows `IngredientQuantity.objects.filter(recipe=recipe)` yields, in table order. */
  function RecipeEntries(quantities: seq<Row<IngredientQuantity>>, ingredients: seq<Row<Ingredient>>, recipe: Id): (es: seq<Entry>)
    requires Resolved(quantities, ingredients)
    ensures |es| <= |quantities|
    ensures (forall q | q in quantities :: q.val.recipe != recipe) ==> es == []
  {
    if quantities == [] then []
    else
      var q := quantities[|quantities| - 1];
      RecipeEntries(quantities[..|quantities| - 1], ingredients, recipe)
        + (if q.val.recipe == recipe then [EntryOf(ingredients, q)] else [])
  }

  /** Every entry the nested loops visit for `user`, in visiting order. */
  function CartEntries(carts: seq<Row<ShoppingCart>>, quantities: seq<Row<IngredientQuantity>>,
                       ingredients: seq<Row<Ingredient>>, user: Id): (es: seq<Entry>)
    requires Resolved(quantities, ingredients)
    ensures (forall c | c in carts :: c.val.user != user) ==> es == []
  {
    if carts == [] then []
    else
      var c := carts[|carts| - 1];
      CartEntries(carts[..|carts| - 1], quantities, ingredients, user)
        + (if c.val.user == user then RecipeEntries(quantities, ingredients, c.val.recipe) else [])
  }

  /** The sum of the amounts of the entries named `name`. */
  function Total(es: seq<Entry>, name: string): int
  {
    if es == [] then 0
    else
      var e := es[|es| - 1];
      Total(es[..|es| - 1], name) + (if e.name == name then e.amount else 0)
  }

  /** The unit of the last entry named `name`. */
  function LastUnit(es: seq<Entry>, name: string): string
  {
    if es == [] then ""
    else
      var e := es[|es| - 1];
      if e.name == name then e.unit else LastUnit(es[..|es| - 1], name)
  }

  /** The distinct names of `es`, in order of first appearance. */
  function Names(es: seq<Entry>): (r: seq<string>)
    ensures forall i, j | 0 <= i < j < |r| :: r[i] != r[j]
    ensures forall e | e in es :: e.name in r
  {
    if es == [] then []
    else
      var e := es[|es| - 1];
      var p := Names(es[..|es| - 1]);
      assert es == es[..|es| - 1] + [e];
      if e.name in p then p else p + [e.name]
  }

  /** What the download holds: one line per name, in first-appearance order. */
  function Report(es: seq<Entry>): (r: seq<Line>)
    ensures forall i, j | 0 <= i < j < |r| :: r[i].name != r[j].name
  {
    var names := Names(es);
    seq(|names|, k requires 0 <= k < |names| => Line(names[k], Total(es, names[k]), LastUnit(es, names[k])))
  }

  /** The dictionary `result` (its key order and its values) after the entries `es`. */
  ghost predicate Mirrors(order: seq<string>, result: map<string, Slot>, es: seq<Entry>)
  {
    && order == Names(es)
    && (forall n | n in result :: n in order)
    && (forall n | n in order :: n in result && result[n] == Slot(Total(es, n), LastUnit(es, n)))
  }

  lemma {:induction false} TotalOfAbsent(es: seq<Entry>, name: string)
    requires forall e | e in es :: e.name != name
    ensures Total(es, name) == 0
  {
    if es != [] {
      TotalOfAbsent(es[..|es| - 1], name);
    }
  }

  /** The first time a name is seen its total is exactly that entry's amount:
      the default `[0, ' ']` contributes nothing. */
  lemma FirstOccurrenceTotal(es: seq<Entry>, e: Entry)
    requires e.name !in Names(es)
    ensures Total(es + [e], e.name) == e.amount
  {
    assert (es + [e])[..|es|] == es;
    TotalOfAbsent(es, e.name);
  }

  /** One `result.update({name: [amount + result.get(name, [0, ' '])[0], unit]})`:
      the key is appended to the order only when new, its total grows by the
      amount, and its unit becomes this entry's. */
  lemma MirrorsStep(order: seq<string>, result: map<string, Slot>, es: seq<Entry>,
                    name: string, amount: int, unit: string, previous: Slot,
                    order': seq<string>, result': map<string, Slot>)
    requires Mirrors(order, result, es)
    requires previous == if name in result then result[name] else Slot(0, " ")
    requires order' == if name in result then order else order + [name]
    requires result' == result[name := Slot(amount + previous.total, unit)]
    ensures Mirrors(order', result', es + [Entry(name, amount, unit)])
  {
    var e := Entry(name, amount, unit);
    var es' := es + [e];
    assert es'[..|es'| - 1] == es;
    assert Names(es') == order';
    if name !in result {
      FirstOccurrenceTotal(es, e);
    }
    forall n | n in order' ensures n in result' && result'[n] == Slot(Total(es', n), LastUnit(es', n)) {
      if n != name {
        assert n in order;
      }
    }
  }

  lemma RecipeEntriesStep(quantities: seq<Row<IngredientQuantity>>, ingredients: seq<Row<Ingredient>>, recipe: Id, j: nat,
                           before: seq<Entry>)
    requires Resolved(quantities, ingredients) && j < |quantities|
    ensures Resolved(quantities[..j], ingredients) && Resolved(quantities[..j + 1], ingredients)
    ensures before + RecipeEntries(quantities[..j + 1], ingredients, recipe)
         == before + RecipeEntries(quantities[..j], ingredients, recipe)
            + (if quantities[j].val.recipe == recipe then [EntryOf(ingredients, quantities[j])] else [])
  {
    assert quantities[..j + 1][..j] == quantities[..j];
  }

  lemma CartEntriesStep(carts: seq<Row<ShoppingCart>>, quantities: seq<Row<IngredientQuantity>>,
                        ingredients: seq<Row<Ingredient>>, user: Id, i: nat)
    requires Resolved(quantities, ingredients) && i < |carts|
    ensures CartEntries(carts[..i + 1], quantities, ingredients, user)
         == CartEntries(carts[..i], quantities, ingredients, user)
            + (if carts[i].val.user == user then RecipeEntries(quantities, ingredients, carts[i].val.recipe) else [])
  {
    assert carts[..i + 1][..i] == carts[..i];
  }

  /** Emitting `result.items()` in order yields the report of the entries. */
  lemma MirrorReport(order: seq<string>, result: map<string, Slot>, es: seq<Entry>, lines: seq<Line>)
    requires Mirrors(order, result, es)
    requires |lines| == |order|
    requires forall m | 0 <= m < |order| :: order[m] in result && lines[m] == Line(order[m], result[order[m]].total, result[order[m]].unit)
    ensures lines == Report(es)
  {
  }

  // Properties of the specification.

  /** Every listed name occurs in some entry. */
  lemma {:induction false} NamesOccur(es: seq<Entry>, n: string)
    requires n in Names(es)
    ensures exists e | e in es :: e.name == n
  {
    var p := es[..|es| - 1];
    assert es == p + [es[|es| - 1]];
    if n in Names(p) {
      NamesOccur(p, n);
      var e :| e in p && e.name == n;
      assert e in es;
    }
  }

  /** The reported unit is the unit of some entry with that name (the last one). */
  lemma {:induction false} LastUnitOccurs(es: seq<Entry>, n: string)
    requires n in Names(es)
    ensures exists e | e in es :: e.name == n && e.unit == LastUnit(es, n)
  {
    var p := es[..|es| - 1];
    assert es == p + [es[|es| - 1]];
    if es[|es| - 1].name != n {
      LastUnitOccurs(p, n);
      var e :| e in p && e.name == n && e.unit == LastUnit(p, n);
      assert e in es;
    }
  }

  lemma {:induction false} TotalAppend(a: seq<Entry>, b: seq<Entry>, n: string)
    ensures Total(a + b, n) == Total(a, n) + Total(b, n)
  {
    if b == [] {
      assert a + b == a;
    } else {
      var b' := b[..|b| - 1];
      assert (a + b)[..|a + b| - 1] == a + b';
      TotalAppend(a, b', n);
    }
  }

  /** With every amount at least 1 (the validator), a listed name totals at least 1. */
  lemma {:induction false} ListedTotalPositive(es: seq<Entry>, n: string)
    requires forall e | e in es :: e.amount >= MinPositive
    ensures Total(es, n) >= 0
    ensures n in Names(es) ==> Total(es, n) >= MinPositive
  {
    if es != [] {
      var p := es[..|es| - 1];
      assert es == p + [es[|es| - 1]];
      ListedTotalPositive(p, n);
    }
  }

  /** Position of the first entry named `name`; `|es|` when there is none. */
  function FirstIndex(es: seq<Entry>, name: string): (k: nat)
    ensures k <= |es|
    ensures k < |es| <==> exists e | e in es :: e.name == name
    ensures k < |es| ==> es[k].name == name
  {
    if es == [] then 0
    else if es[0].name == name then 0
    else
      var k := 1 + FirstIndex(es[1..], name);
      assert forall e | e in es :: e == es[0] || e in es[1..];
      k
  }

  lemma {:induction false} FirstIndexSnoc(es: seq<Entry>, e: Entry, name: string)
    ensures FirstIndex(es + [e], name)
         == if FirstIndex(es, name) < |es| then FirstIndex(es, name) else if e.name == name then |es| else |es| + 1
  {
    if es != [] {
      assert (es + [e])[1..] == es[1..] + [e];
      FirstIndexSnoc(es[1..], e, name);
    }
  }

  /** `result.items()` yields the names in the order they were first seen;
      updating a key already present keeps its place. */
  lemma {:induction false} NamesInFirstAppearanceOrder(es: seq<Entry>)
    ensures forall i, j | 0 <= i < j < |Names(es)| :: FirstIndex(es, Names(es)[i]) < FirstIndex(es, Names(es)[j])
  {
    if es != [] {
      var p, e := es[..|es| - 1], es[|es| - 1];
      assert es == p + [e];
      NamesInFirstAppearanceOrder(p);
      var names := Names(es);
      forall i, j | 0 <= i < j < |names| ensures FirstIndex(es, names[i]) < FirstIndex(es, names[j]) {
        NamesOccur(p, names[i]);
        FirstIndexSnoc(p, e, names[i]);
        FirstIndexSnoc(p, e, names[j]);
        if j < |Names(p)| {
          NamesOccur(p, names[j]);
        }
      }
    }
  }

  // The specification against the tables.

  /** The recipes in `user`'s cart. */
  function CartRecipes(carts: seq<Row<ShoppingCart>>, user: Id): set<Id>
  {
    set c | c in carts && c.val.user == user :: c.val.recipe
  }

  /** The sum of `amount` over the quantity rows whose recipe is in `recipes`
      and whose ingredient is named `name`. */
  function AmountIn(quantities: seq<Row<IngredientQuantity>>, ingredients: seq<Row<Ingredient>>,
                    recipes: set<Id>, name: string): int
    requires Resolved(quantities, ingredients)
  {
    if quantities == [] then 0
    else
      var q := quantities[|quantities| - 1];
      AmountIn(quantities[..|quantities| - 1], ingredients, recipes, name)
        + (if q.val.recipe in recipes && IngredientOf(ingredients, q.val.ingredient).name == name then q.val.amount else 0)
  }

  /** The sum of `amount` over the quantity rows of ingredient `ingredient`
      whose recipe is in `recipes`: grouping by identity. */
  function AmountOfIngredient(quantities: seq<Row<IngredientQuantity>>, recipes: set<Id>, ingredient: Id): int
  {
    if quantities == [] then 0
    else
      var q := quantities[|quantities| - 1];
      AmountOfIngredient(quantities[..|quantities| - 1], recipes, ingredient)
        + (if q.val.recipe in recipes && q.val.ingredient == ingredient then q.val.amount else 0)
  }

  lemma {:induction false} AmountInNothing(quantities: seq<Row<IngredientQuantity>>, ingredients: seq<Row<Ingredient>>, name: string)
    requires Resolved(quantities, ingredients)
    ensures AmountIn(quantities, ingredients, {}, name) == 0
  {
    if quantities != [] {
      AmountInNothing(quantities[..|quantities| - 1], ingredients, name);
    }
  }

  lemma {:induction false} AmountInSplit(quantities: seq<Row<IngredientQuantity>>, ingredients: seq<Row<Ingredient>>,
                                         recipes: set<Id>, recipe: Id, name: string)
    requires Resolved(quantities, ingredients) && recipe !in recipes
    ensures AmountIn(quantities, ingredients, recipes + {recipe}, name)
         == AmountIn(quantities, ingredients, recipes, name) + AmountIn(quantities, ingredients, {recipe}, name)
  {
    if quantities != [] {
      AmountInSplit(quantities[..|quantities| - 1], ingredients, recipes, recipe, name);
    }
  }

  lemma {:induction false} RecipeTotal(quantities: seq<Row<IngredientQuantity>>, ingredients: seq<Row<Ingredient>>,
                                       recipe: Id, name: string)
    requires Resolved(quantities, ingredients)
    ensures Total(RecipeEntries(quantities, ingredients, recipe), name) == AmountIn(quantities, ingredients, {recipe}, name)
  {
    if quantities != [] {
      var p, q := quantities[..|quantities| - 1], quantities[|quantities| - 1];
      var tail := if q.val.recipe == recipe then [EntryOf(ingredients, q)] else [];
      RecipeTotal(p, ingredients, recipe, name);
      TotalAppend(RecipeEntries(p, ingredients, recipe), tail, name);
      if tail != [] {
        assert tail[..0] == [];
      }
    }
  }

  /** The total `download_shopping_cart` reports for a name is the sum of the
      amounts of the quantity rows whose recipe is in the user's cart and
      whose ingredient has that name. The cart's `(user, recipe)` pairs being
      unique, no recipe is counted twice. */
  lemma {:induction false} CartTotal(carts: seq<Row<ShoppingCart>>, quantities: seq<Row<IngredientQuantity>>,
                                     ingredients: seq<Row<Ingredient>>, user: Id, name: string)
    requires Resolved(quantities, ingredients) && Unique(carts, CartPair)
    ensures Total(CartEntries(carts, quantities, ingredients, user), name)
         == AmountIn(quantities, ingredients, CartRecipes(carts, user), name)
  {
    if carts == [] {
      assert CartRecipes(carts, user) == {};
      AmountInNothing(quantities, ingredients, name);
    } else {
      var p, c := carts[..|carts| - 1], carts[|carts| - 1];
      assert carts == p + [c];
      assert Unique(p, CartPair);
      CartTotal(p, quantities, ingredients, user, name);
      if c.val.user == user {
        TotalAppend(CartEntries(p, quantities, ingredients, user), RecipeEntries(quantities, ingredients, c.val.recipe), name);
        RecipeTotal(quantities, ingredients, c.val.recipe, name);
        assert c.val.recipe !in CartRecipes(p, user);
        assert CartRecipes(carts, user) == CartRecipes(p, user) + {c.val.recipe};
        AmountInSplit(quantities, ingredients, CartRecipes(p, user), c.val.recipe, name);
      } else {
        assert CartRecipes(carts, user) == CartRecipes(p, user);
        assert CartEntries(p, quantities, ingredients, user) + [] == CartEntries(p, quantities, ingredients, user);
      }
    }
  }

  /** The totals do not depend on the order in which the cart rows come. */
  lemma CartOrderIrrelevant(carts: seq<Row<ShoppingCart>>, carts': seq<Row<ShoppingCart>>,
                            quantities: seq<Row<IngredientQuantity>>, ingredients: seq<Row<Ingredient>>,
                            user: Id, name: string)
    requires Resolved(quantities, ingredients)
    requires Unique(carts, CartPair) && Unique(carts', CartPair) && multiset(carts) == multiset(carts')
    ensures Total(CartEntries(carts, quantities, ingredients, user), name)
         == Total(CartEntries(carts', quantities, ingredients, user), name)
  {
    CartTotal(carts, quantities, ingredients, user, name);
    CartTotal(carts', quantities, ingredients, user, name);
    forall c ensures c in carts <==> c in carts' {
      assert c in carts <==> c in multiset(carts);
      assert c in carts' <==> c in multiset(carts');
    }
    assert CartRecipes(carts, user) == CartRecipes(carts', user);
  }

  lemma {:induction false} RecipeEntriesMembers(quantities: seq<Row<IngredientQuantity>>,
                                                ingredients: seq<Row<Ingredient>>, recipe: Id)
    requires Resolved(quantities, ingredients)
    ensures forall e | e in RecipeEntries(quantities, ingredients, recipe) ::
      exists q | q in quantities :: q.val.recipe == recipe && e == EntryOf(ingredients, q)
    ensures forall q | q in quantities && q.val.recipe == recipe ::
      EntryOf(ingredients, q) in RecipeEntries(quantities, ingredients, recipe)
  {
    if quantities != [] {
      var p, q := quantities[..|quantities| - 1], quantities[|quantities| - 1];
      assert quantities == p + [q];
      RecipeEntriesMembers(p, ingredients, recipe);
    }
  }

  /** The entries visited are exactly the quantity rows of the cart's recipes. */
  lemma {:induction false} CartEntriesMembers(carts: seq<Row<ShoppingCart>>, quantities: seq<Row<IngredientQuantity>>,
                                              ingredients: seq<Row<Ingredient>>, user: Id)
    requires Resolved(quantities, ingredients)
    ensures forall e | e in CartEntries(carts, quantities, ingredients, user) ::
      exists q | q in quantities :: q.val.recipe in CartRecipes(carts, user) && e == EntryOf(ingredients, q)
    ensures forall q | q in quantities && q.val.recipe in CartRecipes(carts, user) ::
      EntryOf(ingredients, q) in CartEntries(carts, quantities, ingredients, user)
  {
    if carts != [] {
      var p, c := carts[..|carts| - 1], carts[|carts| - 1];
      assert carts == p + [c];
      CartEntriesMembers(p, quantities, ingredients, user);
      RecipeEntriesMembers(quantities, ingredients, c.val.recipe);
      assert CartRecipes(carts, user) == CartRecipes(p, user) + (if c.val.user == user then {c.val.recipe} else {});
    }
  }

  /** A name is listed exactly when some quantity row of a cart recipe uses
      an ingredient of that name. */
  lemma ListedIffUsed(carts: seq<Row<ShoppingCart>>, quantities: seq<Row<IngredientQuantity>>,
                      ingredients: seq<Row<Ingredient>>, user: Id, name: string)
    requires Resolved(quantities, ingredients)
    ensures name in Names(CartEntries(carts, quantities, ingredients, user))
       <==> exists q | q in quantities :: q.val.recipe in CartRecipes(carts, user)
                                       && IngredientOf(ingredients, q.val.ingredient).name == name
  {
    var es := CartEntries(carts, quantities, ingredients, user);
    CartEntriesMembers(carts, quantities, ingredients, user);
    if name in Names(es) {
      NamesOccur(es, name);
    }
    if exists q | q in quantities :: q.val.recipe in CartRecipes(carts, user)
                                  && IngredientOf(ingredients, q.val.ingredient).name == name {
      var q :| q in quantities && q.val.recipe in CartRecipes(carts, user)
               && IngredientOf(ingredients, q.val.ingredient).name == name;
      assert EntryOf(ingredients, q) in es;
    }
  }

  /** Every listed (name, unit) pair is an ingredient row of the catalogue. */
  lemma ListedUnitCatalogued(carts: seq<Row<ShoppingCart>>, quantities: seq<Row<IngredientQuantity>>,
                             ingredients: seq<Row<Ingredient>>, user: Id, name: string)
    requires Resolved(quantities, ingredients)
    requires name in Names(CartEntries(carts, quantities, ingredients, user))
    ensures Present(ingredients, Ingredient(name, LastUnit(CartEntries(carts, quantities, ingredients, user), name)))
  {
    var es := CartEntries(carts, quantities, ingredients, user);
    LastUnitOccurs(es, name);
    var e :| e in es && e.name == name && e.unit == LastUnit(es, name);
    CartEntriesMembers(carts, quantities, ingredients, user);
    var q :| q in quantities && q.val.recipe in CartRecipes(carts, user) && e == EntryOf(ingredients, q);
    var ing := IngredientOf(ingredients, q.val.ingredient);
    assert Row(q.val.ingredient, ing) in ingredients;
  }

  /** With unique ingredient names the reported unit is that ingredient's own
      `measurement_unit`, whatever order the rows were visited in. */
  lemma UnitIsIngredientUnit(carts: seq<Row<ShoppingCart>>, quantities: seq<Row<IngredientQuantity>>,
                             ingredients: seq<Row<Ingredient>>, user: Id, r: Row<Ingredient>)
    requires Resolved(quantities, ingredients) && Unique(ingredients, IngredientName)
    requires r in ingredients && r.val.name in Names(CartEntries(carts, quantities, ingredients, user))
    ensures LastUnit(CartEntries(carts, quantities, ingredients, user), r.val.name) == r.val.measurementUnit
  {
    var es := CartEntries(carts, quantities, ingredients, user);
    ListedUnitCatalogued(carts, quantities, ingredients, user, r.val.name);
    var w :| w in ingredients && w.val == Ingredient(r.val.name, LastUnit(es, r.val.name));
    SameKeySameRow(ingredients, IngredientName, w, r);
  }

  /** With unique ingredient names (and ids), grouping by name is grouping by
      ingredient identity. */
  lemma {:induction false} ByNameIsById(quantities: seq<Row<IngredientQuantity>>, ingredients: seq<Row<Ingredient>>,
                                        recipes: set<Id>, r: Row<Ingredient>)
    requires Resolved(quantities, ingredients)
    requires Descending(ingredients) && Unique(ingredients, IngredientName) && r in ingredients
    ensures AmountIn(quantities, ingredients, recipes, r.val.name) == AmountOfIngredient(quantities, recipes, r.id)
  {
    if quantities != [] {
      var p, q := quantities[..|quantities| - 1], quantities[|quantities| - 1];
      ByNameIsById(p, ingredients, recipes, r);
      var ing := IngredientOf(ingredients, q.val.ingredient);
      if ing.name == r.val.name {
        SameKeySameRow(ingredients, IngredientName, Row(q.val.ingredient, ing), r);
      }
      if q.val.ingredient == r.id {
        SameIdSameRow(ingredients, Row(q.val.ingredient, ing), r);
      }
    }
  }

  /** The rows `ShoppingCart.objects.filter(user=user)` yields. */
  function OwnCarts(carts: seq<Row<ShoppingCart>>, user: Id): (own: seq<Row<ShoppingCart>>)
    ensures forall c | c in own :: c in carts && c.val.user == user
    ensures forall c | c in carts && c.val.user == user :: c in own
    ensures |own| <= |carts|
  {
    if carts == [] then []
    else
      var c := carts[|carts| - 1];
      OwnCarts(carts[..|carts| - 1], user) + (if c.val.user == user then [c] else [])
  }

  lemma {:induction false} OwnCartsSuffice(carts: seq<Row<ShoppingCart>>, quantities: seq<Row<IngredientQuantity>>,
                                           ingredients: seq<Row<Ingredient>>, user: Id)
    requires Resolved(quantities, ingredients)
    ensures CartEntries(carts, quantities, ingredients, user) == CartEntries(OwnCarts(carts, user), quantities, ingredients, user)
  {
    if carts != [] {
      var p, c := carts[..|carts| - 1], carts[|carts| - 1];
      OwnCartsSuffice(p, quantities, ingredients, user);
      if c.val.user == user {
        var own := OwnCarts(p, user) + [c];
        assert own[..|own| - 1] == OwnCarts(p, user);
      } else {
        assert OwnCarts(p, user) + [] == OwnCarts(p, user);
        assert CartEntries(p, quantities, ingredients, user) + [] == CartEntries(p, quantities, ingredients, user);
      }
    }
  }

  /** Other users' cart rows never affect the download. */
  lemma OtherUsersIgnored(carts: seq<Row<ShoppingCart>>, carts': seq<Row<ShoppingCart>>,
                          quantities: seq<Row<IngredientQuantity>>, ingredients: seq<Row<Ingredient>>, user: Id)
    requires Resolved(quantities, ingredients)
    requires OwnCarts(carts, user) == OwnCarts(carts', user)
    ensures Report(CartEntries(carts, quantities, ingredients, user)) == Report(CartEntries(carts', quantities, ingredients, user))
  {
    OwnCartsSuffice(carts, quantities, ingredients, user);
    OwnCartsSuffice(carts', quantities, ingredients, user);
  }

  // What each line of the download means.

  /** Each line's total is the sum of the amounts, over the quantity rows of
      the recipes in the cart, of the ingredients with that name; with amounts
      of at least 1 it is at least 1. */
  lemma ReportTotals(carts: seq<Row<ShoppingCart>>, quantities: seq<Row<IngredientQuantity>>,
                     ingredients: seq<Row<Ingredient>>, user: Id, lines: seq<Line>)
    requires Resolved(quantities, ingredients) && Unique(carts, CartPair)
    requires forall q | q in quantities :: q.val.amount >= MinPositive
    requires lines == Report(CartEntries(carts, quantities, ingredients, user))
    ensures forall k | 0 <= k < |lines| ::
      lines[k].total == AmountIn(quantities, ingredients, CartRecipes(carts, user), lines[k].name)
      && lines[k].total >= MinPositive
  {
    var es := CartEntries(carts, quantities, ingredients, user);
    CartEntriesMembers(carts, quantities, ingredients, user);
    forall k | 0 <= k < |lines|
      ensures lines[k].total == AmountIn(quantities, ingredients, CartRecipes(carts, user), lines[k].name)
      ensures lines[k].total >= MinPositive
    {
      CartTotal(carts, quantities, ingredients, user, lines[k].name);
      ListedTotalPositive(es, lines[k].name);
    }
  }

  /** With unique ingredient names, each line's unit is the unit of the
      ingredient of that name. */
  lemma ReportUnits(carts: seq<Row<ShoppingCart>>, quantities: seq<Row<IngredientQuantity>>,
                    ingredients: seq<Row<Ingredient>>, user: Id, lines: seq<Line>)
    requires Resolved(quantities, ingredients) && Unique(ingredients, IngredientName)
    requires lines == Report(CartEntries(carts, quantities, ingredients, user))
    ensures forall k, r | 0 <= k < |lines| && r in ingredients && r.val.name == lines[k].name ::
      lines[k].unit == r.val.measurementUnit
  {
    forall k, r | 0 <= k < |lines| && r in ingredients && r.val.name == lines[k].name
      ensures lines[k].unit == r.val.measurementUnit
    {
      UnitIsIngredientUnit(carts, quantities, ingredients, user, r);
    }
  }

  /** Every line names a catalogued (name, unit) pair, and every ingredient of
      every recipe in the cart has a line. */
  lemma ReportMatchesCatalogue(carts: seq<Row<ShoppingCart>>, quantities: seq<Row<IngredientQuantity>>,
                               ingredients: seq<Row<Ingredient>>, user: Id, lines: seq<Line>)
    requires Resolved(quantities, ingredients)
    requires lines == Report(CartEntries(carts, quantities, ingredients, user))
    ensures forall k | 0 <= k < |lines| :: Present(ingredients, Ingredient(lines[k].name, lines[k].unit))
    ensures forall q | q in quantities && q.val.recipe in CartRecipes(carts, user) ::
      exists k | 0 <= k < |lines| :: lines[k].name == IngredientOf(ingredients, q.val.ingredient).name
  {
    var names := Names(CartEntries(carts, quantities, ingredients, user));
    forall k | 0 <= k < |lines| ensures Present(ingredients, Ingredient(lines[k].name, lines[k].unit)) {
      ListedUnitCatalogued(carts, quantities, ingredients, user, names[k]);
    }
    forall q | q in quantities && q.val.recipe in CartRecipes(carts, user)
      ensures exists k | 0 <= k < |lines| :: lines[k].name == IngredientOf(ingredients, q.val.ingredient).name
    {
      var n := IngredientOf(ingredients, q.val.ingredient).name;
      ListedIffUsed(carts, quantities, ingredients, user, n);
      var k :| 0 <= k < |names| && names[k] == n;
      assert lines[k].name == n;
    }
  }

  /** `result.update({name: [amount + result.get(name, [0, ' '])[0], unit]})`. */
  method Accumulate(order: seq<string>, result: map<string, Slot>, name: string, amount: int, unit: string,
                    ghost seen: seq<Entry>)
    returns (order': seq<string>, result': map<string, Slot>)
    requires Mirrors(order, result, seen)
    ensures Mirrors(order', result', seen + [Entry(name, amount, unit)])
  {
    var previous := if name in result then result[name] else Slot(0, " ");
    order' := if name in result then order else order + [name];
    result' := result[name := Slot(amount + previous.total, unit)];
    MirrorsStep(order, result, seen, name, amount, unit, previous, order', result');
  }

  /** One row of the recipe scan: a row of `recipe` is folded in, any other
      row is passed over. */
  method VisitRow(order: seq<string>, result: map<string, Slot>, q: Row<IngredientQuantity>,
                  ingredients: seq<Row<Ingredient>>, recipe: Id, ghost seen: seq<Entry>)
    returns (order': seq<string>, result': map<string, Slot>)
    requires q.val.ingredient in Ids(ingredients)
    requires Mirrors(order, result, seen)
    ensures Mirrors(order', result', seen + if q.val.recipe == recipe then [EntryOf(ingredients, q)] else [])
  {
    if q.val.recipe == recipe {
      var ing := IngredientOf(ingredients, q.val.ingredient);
      order', result' := Accumulate(order, result, ing.name, q.val.amount, ing.measurementUnit, seen);
    } else {
      order', result' := order, result;
      assert seen + [] == seen;
    }
  }

  /** The inner `for` of the Python loop: fold the rows of
      `IngredientQuantity.objects.filter(recipe=recipe)` into `result`, the
      query modelled as a scan that skips the other recipes' rows. */
  method AddRecipe(order: seq<string>, result: map<string, Slot>, quantities: seq<Row<IngredientQuantity>>,
                   ingredients: seq<Row<Ingredient>>, recipe: Id, ghost before: seq<Entry>)
    returns (order': seq<string>, result': map<string, Slot>)
    requires Resolved(quantities, ingredients)
    requires Mirrors(order, result, before)
    ensures Mirrors(order', result', before + RecipeEntries(quantities, ingredients, recipe))
  {
    order', result' := order, result;
    ghost var seen := before;
    var j := 0;
    assert quantities[..0] == [];
    while j < |quantities|
      invariant 0 <= j <= |quantities|
      invariant Resolved(quantities[..j], ingredients)
      invariant seen == before + RecipeEntries(quantities[..j], ingredients, recipe)
      invariant Mirrors(order', result', seen)
    {
      RecipeEntriesStep(quantities, ingredients, recipe, j, before);
      order', result' := VisitRow(order', result', quantities[j], ingredients, recipe, seen);
      seen := seen + if quantities[j].val.recipe == recipe then [EntryOf(ingredients, quantities[j])] else [];
      j := j + 1;
    }
    assert quantities[..j] == quantities;
  }

  /** The outer `for` of the Python loop, over `ShoppingCart.objects.filter(user=user)`
      (a scan that skips other users' rows), then the loop that writes one line
      per item of `result`. */
  method Aggregate(carts: seq<Row<ShoppingCart>>, quantities: seq<Row<IngredientQuantity>>,
                   ingredients: seq<Row<Ingredient>>, user: Id) returns (lines: seq<Line>)
    requires Resolved(quantities, ingredients)
    ensures lines == Report(CartEntries(carts, quantities, ingredients, user))
  {
    var order: seq<string> := [];
    var result: map<string, Slot> := map[];
    ghost var seen: seq<Entry> := [];
    var i := 0;
    while i < |carts|
      invariant 0 <= i <= |carts|
      invariant seen == CartEntries(carts[..i], quantities, ingredients, user)
      invariant Mirrors(order, result, seen)
    {
      if carts[i].val.user == user {
        order, result := AddRecipe(order, result, quantities, ingredients, carts[i].val.recipe, seen);
        seen := seen + RecipeEntries(quantities, ingredients, carts[i].val.recipe);
      }
      CartEntriesStep(carts, quantities, ingredients, user, i);
      i := i + 1;
    }
    assert carts[..i] == carts;
    lines := [];
    var k := 0;
    while k < |order|
      invariant 0 <= k <= |order|
      invariant |lines| == k
      invariant forall m | 0 <= m < k :: order[m] in result && lines[m] == Line(order[m], result[order[m]].total, result[order[m]].unit)
    {
      lines := lines + [Line(order[k], result[order[k]].total, result[order[k]].unit)];
      k := k + 1;
    }
    MirrorReport(order, result, seen, lines);
  }
}
