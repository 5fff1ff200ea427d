/** The relational store: every table of the two models files, the constraints
    the database and the model validators enforce on insert, and the
    `on_delete=models.CASCADE` deletes that follow a foreign key. */
module Store {
  import opened Rows
  import opened Schema

  /** How an operation fails: 401, 403, 404, a constraint violation (400), or
      an exception the view does not catch (500). */
  datatype Error = NotAuthenticated | Forbidden | NotFound | Invalid | ServerError

  datatype Result<T> = Ok(value: T) | Err(error: Error)

  /** The contents of every table at one moment. */
  datatype Snapshot = Snapshot(
    users: seq<Row<User>>,
    tags: seq<Row<Tag>>,
    ingredients: seq<Row<Ingredient>>,
    recipes: seq<Row<Recipe>>,
    recipeTags: seq<Row<RecipeTag>>,
    quantities: seq<Row<IngredientQuantity>>,
    favorites: seq<Row<Favorite>>,
    carts: seq<Row<ShoppingCart>>,
    follows: seq<Row<Follow>>)

  /** Every table meets its constraints and every foreign key resolves. */
  ghost predicate Consistent(s: Snapshot)
  {
    && UsersOk(s.users)
    && TagsOk(s.tags)
    && IngredientsOk(s.ingredients)
    && RecipesOk(s.recipes, Ids(s.users))
    && RecipeTagsOk(s.recipeTags, Ids(s.recipes), Ids(s.tags))
    && QuantitiesOk(s.quantities, Ids(s.ingredients), Ids(s.recipes))
    && FavoritesOk(s.favorites, Ids(s.users), Ids(s.recipes))
    && CartsOk(s.carts, Ids(s.users), Ids(s.recipes))
    && FollowsOk(s.follows, Ids(s.users))
  }

  ghost predicate AllBelow(s: Snapshot, next: Id)
  {
    && Below(s.users, next) && Below(s.tags, next) && Below(s.ingredients, next)
    && Below(s.recipes, next) && Below(s.recipeTags, next) && Below(s.quantities, next)
    && Below(s.favorites, next) && Below(s.carts, next) && Below(s.follows, next)
  }

  /** The ids of the recipes `uid` wrote: what deleting `uid` takes with it. */
  function AuthoredBy(recipes: seq<Row<Recipe>>, uid: Id): set<Id>
  {
    set r | r in recipes && r.val.author == uid :: r.id
  }

  /** Deleting the recipes of `uid` removes exactly the ids `AuthoredBy` names. */
  lemma IdsAfterAuthorDrop(recipes: seq<Row<Recipe>>, uid: Id)
    requires Descending(recipes)
    ensures Ids(Drop(recipes, RecipeAuthor, {uid})) == Ids(recipes) - AuthoredBy(recipes, uid)
  {
    var kept := Drop(recipes, RecipeAuthor, {uid});
    forall id | id in Ids(kept) ensures id !in AuthoredBy(recipes, uid) {
      var r :| r in kept && r.id == id;
      if id in AuthoredBy(recipes, uid) {
        var w :| w in recipes && w.val.author == uid && w.id == id;
        SameIdSameRow(recipes, r, w);
        assert false;
      }
    }
    forall id | id in Ids(recipes) - AuthoredBy(recipes, uid) ensures id in Ids(kept) {
      var r :| r in recipes && r.id == id;
      assert RecipeAuthor(r) != uid;
      assert r in kept;
    }
  }

  /** The tables after a recipe and everything that references it are deleted. */
  ghost function WithoutRecipe(s: Snapshot, rid: Id): (t: Snapshot)
    ensures t.users == s.users && t.tags == s.tags && t.ingredients == s.ingredients && t.follows == s.follows
    ensures forall r | r in s.recipes :: r in t.recipes <==> r.id != rid
    ensures forall x | x in s.recipeTags :: x in t.recipeTags <==> x.val.recipe != rid
    ensures forall q | q in s.quantities :: q in t.quantities <==> q.val.recipe != rid
    ensures forall f | f in s.favorites :: f in t.favorites <==> f.val.recipe != rid
    ensures forall c | c in s.carts :: c in t.carts <==> c.val.recipe != rid
    ensures (forall r | r in t.recipes :: r in s.recipes) && (forall q | q in t.quantities :: q in s.quantities)
    ensures (forall f | f in t.favorites :: f in s.favorites) && (forall c | c in t.carts :: c in s.carts)
    ensures forall x | x in t.recipeTags :: x in s.recipeTags
  {
    s.(recipes := Drop(s.recipes, RowId, {rid}),
       recipeTags := Drop(s.recipeTags, RecipeTagRecipe, {rid}),
       quantities := Drop(s.quantities, QuantityRecipe, {rid}),
       favorites := Drop(s.favorites, FavoriteRecipe, {rid}),
       carts := Drop(s.carts, CartRecipe, {rid}))
  }

  /** The tables after an ingredient and its quantity rows are deleted. */
  ghost function WithoutIngredient(s: Snapshot, iid: Id): (t: Snapshot)
    ensures t == s.(ingredients := t.ingredients, quantities := t.quantities)
    ensures forall i | i in s.ingredients :: i in t.ingredients <==> i.id != iid
    ensures forall q | q in s.quantities :: q in t.quantities <==> q.val.ingredient != iid
    ensures (forall i | i in t.ingredients :: i in s.ingredients) && (forall q | q in t.quantities :: q in s.quantities)
  {
    s.(ingredients := Drop(s.ingredients, RowId, {iid}),
       quantities := Drop(s.quantities, QuantityIngredient, {iid}))
  }

  /** The tables after a tag and its recipe links are deleted. */
  ghost function WithoutTag(s: Snapshot, tid: Id): (t: Snapshot)
    ensures t == s.(tags := t.tags, recipeTags := t.recipeTags)
    ensures forall g | g in s.tags :: g in t.tags <==> g.id != tid
    ensures forall x | x in s.recipeTags :: x in t.recipeTags <==> x.val.tag != tid
    ensures (forall g | g in t.tags :: g in s.tags) && (forall x | x in t.recipeTags :: x in s.recipeTags)
  {
    s.(tags := Drop(s.tags, RowId, {tid}),
       recipeTags := Drop(s.recipeTags, RecipeTagTag, {tid}))
  }

  /** The tables after a user, their recipes, everything referencing those
      recipes, their favorites and cart rows and their follows are deleted. */
  ghost function WithoutUser(s: Snapshot, uid: Id): (t: Snapshot)
    ensures t.tags == s.tags && t.ingredients == s.ingredients
  {
    var authored := AuthoredBy(s.recipes, uid);
    s.(users := Drop(s.users, RowId, {uid}),
       recipes := Drop(s.recipes, RecipeAuthor, {uid}),
       recipeTags := Drop(s.recipeTags, RecipeTagRecipe, authored),
       quantities := Drop(s.quantities, QuantityRecipe, authored),
       favorites := Drop(Drop(s.favorites, FavoriteUser, {uid}), FavoriteRecipe, authored),
       carts := Drop(Drop(s.carts, CartUser, {uid}), CartRecipe, authored),
       follows := Drop(Drop(s.follows, FollowUser, {uid}), FollowFollowing, {uid}))
  }

  /** Deleting a user deletes exactly: the user, the recipes they wrote, every
      row referencing one of those recipes, their own favorites and cart rows,
      and every follow they are either side of. */
  lemma UserDeleteCascades(s: Snapshot, uid: Id)
    ensures var t := WithoutUser(s, uid);
      && (forall u | u in s.users :: u in t.users <==> u.id != uid)
      && (forall r | r in s.recipes :: r in t.recipes <==> r.val.author != uid)
      && (forall x | x in s.recipeTags :: x in t.recipeTags <==> x.val.recipe !in AuthoredBy(s.recipes, uid))
      && (forall q | q in s.quantities :: q in t.quantities <==> q.val.recipe !in AuthoredBy(s.recipes, uid))
      && (forall f | f in s.favorites ::
            f in t.favorites <==> f.val.user != uid && f.val.recipe !in AuthoredBy(s.recipes, uid))
      && (forall c | c in s.carts ::
            c in t.carts <==> c.val.user != uid && c.val.recipe !in AuthoredBy(s.recipes, uid))
      && (forall f | f in s.follows :: f in t.follows <==> f.val.user != uid && f.val.following != uid)
  {
  }

  lemma WithoutRecipeConsistent(s: Snapshot, rid: Id)
    requires Consistent(s)
    ensures Consistent(WithoutRecipe(s, rid))
  {
    var t := WithoutRecipe(s, rid);
    IdsAfterDrop(s.recipes, {rid});
    assert RecipesOk(t.recipes, Ids(t.users)) by {
      DropKeepsDescending(s.recipes, RowId, {rid});
    }
    assert RecipeTagsOk(t.recipeTags, Ids(t.recipes), Ids(t.tags)) by {
      DropKeepsDescending(s.recipeTags, RecipeTagRecipe, {rid});
      DropKeepsUnique(s.recipeTags, RecipeTagRecipe, {rid}, RecipeTagPair);
    }
    assert QuantitiesOk(t.quantities, Ids(t.ingredients), Ids(t.recipes)) by {
      DropKeepsDescending(s.quantities, QuantityRecipe, {rid});
      DropKeepsUnique(s.quantities, QuantityRecipe, {rid}, QuantityPair);
    }
    assert FavoritesOk(t.favorites, Ids(t.users), Ids(t.recipes)) by {
      DropKeepsDescending(s.favorites, FavoriteRecipe, {rid});
      DropKeepsUnique(s.favorites, FavoriteRecipe, {rid}, FavoritePair);
    }
    assert CartsOk(t.carts, Ids(t.users), Ids(t.recipes)) by {
      DropKeepsDescending(s.carts, CartRecipe, {rid});
      DropKeepsUnique(s.carts, CartRecipe, {rid}, CartPair);
    }
  }

  lemma WithoutIngredientConsistent(s: Snapshot, iid: Id)
    requires Consistent(s)
    ensures Consistent(WithoutIngredient(s, iid))
  {
    var t := WithoutIngredient(s, iid);
    IdsAfterDrop(s.ingredients, {iid});
    assert IngredientsOk(t.ingredients) by {
      DropKeepsDescending(s.ingredients, RowId, {iid});
      DropKeepsUnique(s.ingredients, RowId, {iid}, IngredientName);
    }
    assert QuantitiesOk(t.quantities, Ids(t.ingredients), Ids(t.recipes)) by {
      DropKeepsDescending(s.quantities, QuantityIngredient, {iid});
      DropKeepsUnique(s.quantities, QuantityIngredient, {iid}, QuantityPair);
    }
  }

  lemma WithoutTagConsistent(s: Snapshot, tid: Id)
    requires Consistent(s)
    ensures Consistent(WithoutTag(s, tid))
  {
    var t := WithoutTag(s, tid);
    IdsAfterDrop(s.tags, {tid});
    assert TagsOk(t.tags) by {
      DropKeepsDescending(s.tags, RowId, {tid});
      DropKeepsUnique(s.tags, RowId, {tid}, TagName);
      DropKeepsUnique(s.tags, RowId, {tid}, TagColor);
      DropKeepsUnique(s.tags, RowId, {tid}, TagSlug);
    }
    assert RecipeTagsOk(t.recipeTags, Ids(t.recipes), Ids(t.tags)) by {
      DropKeepsDescending(s.recipeTags, RecipeTagTag, {tid});
      DropKeepsUnique(s.recipeTags, RecipeTagTag, {tid}, RecipeTagPair);
    }
  }

  lemma WithoutUserConsistent(s: Snapshot, uid: Id)
    requires Consistent(s)
    ensures Consistent(WithoutUser(s, uid))
  {
    var t := WithoutUser(s, uid);
    var authored := AuthoredBy(s.recipes, uid);
    IdsAfterDrop(s.users, {uid});
    IdsAfterAuthorDrop(s.recipes, uid);
    assert UsersOk(t.users) by {
      DropKeepsDescending(s.users, RowId, {uid});
      DropKeepsUnique(s.users, RowId, {uid}, UserEmail);
      DropKeepsUnique(s.users, RowId, {uid}, UserUsername);
    }
    assert RecipesOk(t.recipes, Ids(t.users)) by {
      DropKeepsDescending(s.recipes, RecipeAuthor, {uid});
    }
    assert RecipeTagsOk(t.recipeTags, Ids(t.recipes), Ids(t.tags)) by {
      DropKeepsDescending(s.recipeTags, RecipeTagRecipe, authored);
      DropKeepsUnique(s.recipeTags, RecipeTagRecipe, authored, RecipeTagPair);
    }
    assert QuantitiesOk(t.quantities, Ids(t.ingredients), Ids(t.recipes)) by {
      DropKeepsDescending(s.quantities, QuantityRecipe, authored);
      DropKeepsUnique(s.quantities, QuantityRecipe, authored, QuantityPair);
    }
    assert FavoritesOk(t.favorites, Ids(t.users), Ids(t.recipes)) by {
      var own := Drop(s.favorites, FavoriteUser, {uid});
      DropKeepsDescending(s.favorites, FavoriteUser, {uid});
      DropKeepsUnique(s.favorites, FavoriteUser, {uid}, FavoritePair);
      DropKeepsDescending(own, FavoriteRecipe, authored);
      DropKeepsUnique(own, FavoriteRecipe, authored, FavoritePair);
    }
    assert CartsOk(t.carts, Ids(t.users), Ids(t.recipes)) by {
      var own := Drop(s.carts, CartUser, {uid});
      DropKeepsDescending(s.carts, CartUser, {uid});
      DropKeepsUnique(s.carts, CartUser, {uid}, CartPair);
      DropKeepsDescending(own, CartRecipe, authored);
      DropKeepsUnique(own, CartRecipe, authored, CartPair);
    }
    assert FollowsOk(t.follows, Ids(t.users)) by {
      var own := Drop(s.follows, FollowUser, {uid});
      DropKeepsDescending(s.follows, FollowUser, {uid});
      DropKeepsUnique(s.follows, FollowUser, {uid}, FollowPair);
      DropKeepsDescending(own, FollowFollowing, {uid});
      DropKeepsUnique(own, FollowFollowing, {uid}, FollowPair);
    }
  }

  class Database {
    var users: seq<Row<User>>
    var tags: seq<Row<Tag>>
    var ingredients: seq<Row<Ingredient>>
    var recipes: seq<Row<Recipe>>
    var recipeTags: seq<Row<RecipeTag>>
    var quantities: seq<Row<IngredientQuantity>>
    var favorites: seq<Row<Favorite>>
    var carts: seq<Row<ShoppingCart>>
    var follows: seq<Row<Follow>>
    /** The next primary key handed out. */
    var nextId: Id

    ghost function Contents(): Snapshot
      reads this
    {
      Snapshot(users, tags, ingredients, recipes, recipeTags, quantities, favorites, carts, follows)
    }

    ghost predicate Valid()
      reads this
    {
      Consistent(Contents()) && AllBelow(Contents(), nextId)
    }

    constructor ()
      ensures Valid()
      ensures Contents() == Snapshot([], [], [], [], [], [], [], [], [])
    {
      users, tags, ingredients, recipes, recipeTags := [], [], [], [], [];
      quantities, favorites, carts, follows := [], [], [], [];
      nextId := 0;
    }

    method InsertUser(u: User) returns (res: Result<Id>)
      requires Valid()
      modifies this
      ensures Valid()
      ensures res.Ok? <==> UserFits(u) && !Taken(old(users), UserEmail, u.email) && !Taken(old(users), UserUsername, u.username)
      ensures res.Ok? ==> (res.value !in Ids(old(users))
          && Contents() == old(Contents()).(users := [Row(res.value, u)] + old(users)))
      ensures res.Err? ==> res.error == Invalid && Contents() == old(Contents())
    {
      if UserFits(u) && !Taken(users, UserEmail, u.email) && !Taken(users, UserUsername, u.username) {
        var id := nextId;
        InsertKeepsDescending(users, id, u);
        InsertKeepsUnique(users, id, u, UserEmail);
        InsertKeepsUnique(users, id, u, UserUsername);
        IdsCons(Row(id, u), users);
        users := [Row(id, u)] + users;
        nextId := nextId + 1;
        res := Ok(id);
      } else {
        res := Err(Invalid);
      }
    }

    method InsertTag(t: Tag) returns (res: Result<Id>)
      requires Valid()
      modifies this
      ensures Valid()
      ensures res.Ok? <==> (TagFits(t) && !Taken(old(tags), TagName, t.name)
          && !Taken(old(tags), TagColor, t.color) && !Taken(old(tags), TagSlug, t.slug))
      ensures res.Ok? ==> (res.value !in Ids(old(tags))
          && Contents() == old(Contents()).(tags := [Row(res.value, t)] + old(tags)))
      ensures res.Err? ==> res.error == Invalid && Contents() == old(Contents())
    {
      if TagFits(t) && !Taken(tags, TagName, t.name) && !Taken(tags, TagColor, t.color) && !Taken(tags, TagSlug, t.slug) {
        var id := nextId;
        InsertKeepsDescending(tags, id, t);
        InsertKeepsUnique(tags, id, t, TagName);
        InsertKeepsUnique(tags, id, t, TagColor);
        InsertKeepsUnique(tags, id, t, TagSlug);
        IdsCons(Row(id, t), tags);
        tags := [Row(id, t)] + tags;
        nextId := nextId + 1;
        res := Ok(id);
      } else {
        res := Err(Invalid);
      }
    }

    method InsertIngredient(i: Ingredient) returns (res: Result<Id>)
      requires Valid()
      modifies this
      ensures Valid()
      ensures res.Ok? <==> IngredientFits(i) && !Taken(old(ingredients), IngredientName, i.name)
      ensures res.Ok? ==> (res.value !in Ids(old(ingredients))
          && Contents() == old(Contents()).(ingredients := [Row(res.value, i)] + old(ingredients)))
      ensures res.Err? ==> res.error == Invalid && Contents() == old(Contents())
    {
      if IngredientFits(i) && !Taken(ingredients, IngredientName, i.name) {
        var id := nextId;
        InsertKeepsDescending(ingredients, id, i);
        InsertKeepsUnique(ingredients, id, i, IngredientName);
        IdsCons(Row(id, i), ingredients);
        ingredients := [Row(id, i)] + ingredients;
        nextId := nextId + 1;
        res := Ok(id);
      } else {
        res := Err(Invalid);
      }
    }

    method InsertRecipe(r: Recipe) returns (res: Result<Id>)
      requires Valid()
      modifies this
      ensures Valid()
      ensures res.Ok? <==> RecipeFits(r) && r.author in Ids(old(users))
      ensures res.Ok? ==> (res.value !in Ids(old(recipes))
          && Contents() == old(Contents()).(recipes := [Row(res.value, r)] + old(recipes)))
      ensures res.Err? ==> res.error == Invalid && Contents() == old(Contents())
    {
      if RecipeFits(r) && r.author in Ids(users) {
        var id := nextId;
        InsertKeepsDescending(recipes, id, r);
        IdsCons(Row(id, r), recipes);
        recipes := [Row(id, r)] + recipes;
        nextId := nextId + 1;
        res := Ok(id);
      } else {
        res := Err(Invalid);
      }
    }

    method InsertRecipeTag(rt: RecipeTag) returns (res: Result<Id>)
      requires Valid()
      modifies this
      ensures Valid()
      ensures res.Ok? <==> (rt.recipe in Ids(old(recipes)) && rt.tag in Ids(old(tags))
          && !Taken(old(recipeTags), RecipeTagPair, (rt.recipe, rt.tag)))
      ensures res.Ok? ==> Contents() == old(Contents()).(recipeTags := [Row(res.value, rt)] + old(recipeTags))
      ensures res.Err? ==> res.error == Invalid && Contents() == old(Contents())
    {
      if rt.recipe in Ids(recipes) && rt.tag in Ids(tags) && !Taken(recipeTags, RecipeTagPair, (rt.recipe, rt.tag)) {
        var id := nextId;
        InsertKeepsDescending(recipeTags, id, rt);
        InsertKeepsUnique(recipeTags, id, rt, RecipeTagPair);
        recipeTags := [Row(id, rt)] + recipeTags;
        nextId := nextId + 1;
        res := Ok(id);
      } else {
        res := Err(Invalid);
      }
    }

    method InsertQuantity(q: IngredientQuantity) returns (res: Result<Id>)
      requires Valid()
      modifies this
      ensures Valid()
      ensures res.Ok? <==> (SmallPositive(q.amount) && q.ingredient in Ids(old(ingredients))
          && q.recipe in Ids(old(recipes)) && !Taken(old(quantities), QuantityPair, (q.ingredient, q.recipe)))
      ensures res.Ok? ==> Contents() == old(Contents()).(quantities := [Row(res.value, q)] + old(quantities))
      ensures res.Err? ==> res.error == Invalid && Contents() == old(Contents())
    {
      if SmallPositive(q.amount) && q.ingredient in Ids(ingredients) && q.recipe in Ids(recipes)
        && !Taken(quantities, QuantityPair, (q.ingredient, q.recipe))
      {
        var id := nextId;
        InsertKeepsDescending(quantities, id, q);
        InsertKeepsUnique(quantities, id, q, QuantityPair);
        quantities := [Row(id, q)] + quantities;
        nextId := nextId + 1;
        res := Ok(id);
      } else {
        res := Err(Invalid);
      }
    }

    method InsertFavorite(f: Favorite) returns (res: Result<Id>)
      requires Valid()
      modifies this
      ensures Valid()
      ensures res.Ok? <==> (f.user in Ids(old(users)) && f.recipe in Ids(old(recipes))
          && !Taken(old(favorites), FavoritePair, (f.user, f.recipe)))
      ensures res.Ok? ==> Contents() == old(Contents()).(favorites := [Row(res.value, f)] + old(favorites))
      ensures res.Err? ==> res.error == Invalid && Contents() == old(Contents())
    {
      if f.user in Ids(users) && f.recipe in Ids(recipes) && !Taken(favorites, FavoritePair, (f.user, f.recipe)) {
        var id := nextId;
        InsertKeepsDescending(favorites, id, f);
        InsertKeepsUnique(favorites, id, f, FavoritePair);
        favorites := [Row(id, f)] + favorites;
        nextId := nextId + 1;
        res := Ok(id);
      } else {
        res := Err(Invalid);
      }
    }

    method InsertCart(c: ShoppingCart) returns (res: Result<Id>)
      requires Valid()
      modifies this
      ensures Valid()
      ensures res.Ok? <==> (c.user in Ids(old(users)) && c.recipe in Ids(old(recipes))
          && !Taken(old(carts), CartPair, (c.user, c.recipe)))
      ensures res.Ok? ==> Contents() == old(Contents()).(carts := [Row(res.value, c)] + old(carts))
      ensures res.Err? ==> res.error == Invalid && Contents() == old(Contents())
    {
      if c.user in Ids(users) && c.recipe in Ids(recipes) && !Taken(carts, CartPair, (c.user, c.recipe)) {
        var id := nextId;
        InsertKeepsDescending(carts, id, c);
        InsertKeepsUnique(carts, id, c, CartPair);
        carts := [Row(id, c)] + carts;
        nextId := nextId + 1;
        res := Ok(id);
      } else {
        res := Err(Invalid);
      }
    }

    /** `prevent_self_follow` and `unique_follow`: a self-follow and a
        repeated pair are rejected; the reverse pair is not. */
    method InsertFollow(f: Follow) returns (res: Result<Id>)
      requires Valid()
      modifies this
      ensures Valid()
      ensures res.Ok? <==> (f.user != f.following && f.user in Ids(old(users)) && f.following in Ids(old(users))
          && !Taken(old(follows), FollowPair, (f.user, f.following)))
      ensures res.Ok? ==> Contents() == old(Contents()).(follows := [Row(res.value, f)] + old(follows))
      ensures res.Err? ==> res.error == Invalid && Contents() == old(Contents())
    {
      if f.user != f.following && f.user in Ids(users) && f.following in Ids(users)
        && !Taken(follows, FollowPair, (f.user, f.following))
      {
        var id := nextId;
        InsertKeepsDescending(follows, id, f);
        InsertKeepsUnique(follows, id, f, FollowPair);
        follows := [Row(id, f)] + follows;
        nextId := nextId + 1;
        res := Ok(id);
      } else {
        res := Err(Invalid);
      }
    }

    /** `Ingredient.objects.get_or_create(name=..., measurement_unit=...)`:
        the existing row with exactly these values, or a new one when the
        constraints admit it. */
    method GetOrCreateIngredient(name: string, unit: string) returns (res: Result<Id>)
      requires Valid()
      modifies this
      ensures Valid()
      ensures Present(old(ingredients), Ingredient(name, unit)) ==>
        res.Ok? && Row(res.value, Ingredient(name, unit)) in old(ingredients) && Contents() == old(Contents())
      ensures !Present(old(ingredients), Ingredient(name, unit)) ==>
        (res.Ok? <==> IngredientFits(Ingredient(name, unit)) && !Taken(old(ingredients), IngredientName, name))
      ensures !Present(old(ingredients), Ingredient(name, unit)) && res.Ok? ==>
        Contents() == old(Contents()).(ingredients := [Row(res.value, Ingredient(name, unit))] + old(ingredients))
      ensures res.Err? ==> res.error == Invalid && Contents() == old(Contents())
    {
      var v := Ingredient(name, unit);
      if Present(ingredients, v) {
        var r :| r in ingredients && r.val == v;
        res := Ok(r.id);
      } else {
        res := InsertIngredient(v);
      }
    }

    /** Deleting a recipe takes its tag links, ingredient quantities,
        favorites and cart rows with it, and nothing else. */
    method DeleteRecipe(rid: Id)
      requires Valid()
      modifies this
      ensures Valid() && nextId == old(nextId)
      ensures Contents() == WithoutRecipe(old(Contents()), rid)
    {
      WithoutRecipeConsistent(Contents(), rid);
      recipes := Drop(recipes, RowId, {rid});
      recipeTags := Drop(recipeTags, RecipeTagRecipe, {rid});
      quantities := Drop(quantities, QuantityRecipe, {rid});
      favorites := Drop(favorites, FavoriteRecipe, {rid});
      carts := Drop(carts, CartRecipe, {rid});
    }

    /** Deleting an ingredient takes every quantity row that uses it. */
    method DeleteIngredient(iid: Id)
      requires Valid()
      modifies this
      ensures Valid() && nextId == old(nextId)
      ensures Contents() == WithoutIngredient(old(Contents()), iid)
    {
      WithoutIngredientConsistent(Contents(), iid);
      ingredients := Drop(ingredients, RowId, {iid});
      quantities := Drop(quantities, QuantityIngredient, {iid});
    }

    /** Deleting a tag takes its links to recipes. */
    method DeleteTag(tid: Id)
      requires Valid()
      modifies this
      ensures Valid() && nextId == old(nextId)
      ensures Contents() == WithoutTag(old(Contents()), tid)
    {
      WithoutTagConsistent(Contents(), tid);
      tags := Drop(tags, RowId, {tid});
      recipeTags := Drop(recipeTags, RecipeTagTag, {tid});
    }

    /** Deleting a user takes the recipes they wrote (and, through those,
        every row that references those recipes), their own favorites and
        cart rows, and every follow in which they are either side. */
    method DeleteUser(uid: Id)
      requires Valid()
      modifies this
      ensures Valid() && nextId == old(nextId)
      ensures Contents() == WithoutUser(old(Contents()), uid)
    {
      WithoutUserConsistent(Contents(), uid);
      var authored := AuthoredBy(recipes, uid);
      users := Drop(users, RowId, {uid});
      recipes := Drop(recipes, RecipeAuthor, {uid});
      recipeTags := Drop(recipeTags, RecipeTagRecipe, authored);
      quantities := Drop(quantities, QuantityRecipe, authored);
      favorites := Drop(Drop(favorites, FavoriteUser, {uid}), FavoriteRecipe, authored);
      carts := Drop(Drop(carts, CartUser, {uid}), CartRecipe, authored);
      follows := Drop(Drop(follows, FollowUser, {uid}), FollowFollowing, {uid});
    }

    /** `favorite.delete()`: one favorite row goes; nothing references it. */
    method DeleteFavorite(fid: Id)
      requires Valid()
      modifies this
      ensures Valid() && nextId == old(nextId)
      ensures Contents() == old(Contents()).(favorites := Drop(old(favorites), RowId, {fid}))
    {
      DropKeepsDescending(favorites, RowId, {fid});
      DropKeepsUnique(favorites, RowId, {fid}, FavoritePair);
      favorites := Drop(favorites, RowId, {fid});
    }

    /** `shopping_cart.delete()`: one cart row goes; nothing references it. */
    method DeleteCart(cid: Id)
      requires Valid()
      modifies this
      ensures Valid() && nextId == old(nextId)
      ensures Contents() == old(Contents()).(carts := Drop(old(carts), RowId, {cid}))
    {
      DropKeepsDescending(carts, RowId, {cid});
      DropKeepsUnique(carts, RowId, {cid}, CartPair);
      carts := Drop(carts, RowId, {cid});
    }
  }
}
