/** The rows of the recipe store and the constraints their models declare:
    `unique=True` fields, `UniqueConstraint` pairs, the `prevent_self_follow`
    check, `MinValueValidator(1)` on small positive integers, `max_length`
    bounds and the foreign keys every row must resolve. */
module Schema {
  import opened Rows

  // users/models.py
  const EmailMaxLength := 254
  const UsernameMaxLength := 150
  const PersonNameMaxLength := 150

  // recipes_and_ingridients/models.py
  const TagNameMaxLength := 100
  const ColorMaxLength := 7
  const SlugMaxLength := 100
  const IngredientNameMaxLength := 100
  const UnitMaxLength := 100
  const RecipeNameMaxLength := 200
  const RecipeTextMaxLength := 200

  /** `MinValueValidator(1)` on `cooking_time` and `amount`. */
  const MinPositive := 1
  /** Largest value of a `PositiveSmallIntegerField` column. */
  const SmallIntMax := 32767

  /** `MyUser`; `isStaff` is the `is_staff` flag inherited from `AbstractUser`. */
  datatype User = User(email: string, username: string, firstName: string, lastName: string, isStaff: bool)

  datatype Tag = Tag(name: string, color: string, slug: string)

  datatype Ingredient = Ingredient(name: string, measurementUnit: string)

  /** `Recipe` without its image; its tags live in `RecipeTag` rows. */
  datatype Recipe = Recipe(author: Id, name: string, text: string, cookingTime: int)

  /** A row of the through table Django creates for `Recipe.tags`. */
  datatype RecipeTag = RecipeTag(recipe: Id, tag: Id)

  datatype IngredientQuantity = IngredientQuantity(ingredient: Id, recipe: Id, amount: int)

  datatype Favorite = Favorite(user: Id, recipe: Id)

  datatype ShoppingCart = ShoppingCart(user: Id, recipe: Id)

  /** `user` follows `following`. */
  datatype Follow = Follow(user: Id, following: Id)

  // Field checks, one per row kind.

  predicate UserFits(u: User)
  {
    |u.email| <= EmailMaxLength && |u.username| <= UsernameMaxLength
    && |u.firstName| <= PersonNameMaxLength && |u.lastName| <= PersonNameMaxLength
  }

  /** The characters `validate_slug` accepts. */
  predicate SlugChar(c: char)
  {
    'a' <= c <= 'z' || 'A' <= c <= 'Z' || '0' <= c <= '9' || c == '-' || c == '_'
  }

  predicate TagFits(t: Tag)
  {
    |t.name| <= TagNameMaxLength && |t.color| <= ColorMaxLength
    && 0 < |t.slug| <= SlugMaxLength && forall k | 0 <= k < |t.slug| :: SlugChar(t.slug[k])
  }

  predicate IngredientFits(i: Ingredient)
  {
    |i.name| <= IngredientNameMaxLength && |i.measurementUnit| <= UnitMaxLength
  }

  predicate SmallPositive(n: int)
  {
    MinPositive <= n <= SmallIntMax
  }

  predicate RecipeFits(r: Recipe)
  {
    |r.name| <= RecipeNameMaxLength && |r.text| <= RecipeTextMaxLength && SmallPositive(r.cookingTime)
  }

  // Keys of the uniqueness constraints.

  function UserEmail(u: User): string { u.email }
  function UserUsername(u: User): string { u.username }
  function TagName(t: Tag): string { t.name }
  function TagColor(t: Tag): string { t.color }
  function TagSlug(t: Tag): string { t.slug }
  function IngredientName(i: Ingredient): string { i.name }
  function RecipeTagPair(rt: RecipeTag): (Id, Id) { (rt.recipe, rt.tag) }
  function QuantityPair(q: IngredientQuantity): (Id, Id) { (q.ingredient, q.recipe) }
  function FavoritePair(f: Favorite): (Id, Id) { (f.user, f.recipe) }
  function CartPair(c: ShoppingCart): (Id, Id) { (c.user, c.recipe) }
  function FollowPair(f: Follow): (Id, Id) { (f.user, f.following) }

  // Foreign keys, as the column a cascading delete filters on.

  function RecipeAuthor(r: Row<Recipe>): Id { r.val.author }
  function RecipeTagRecipe(r: Row<RecipeTag>): Id { r.val.recipe }
  function RecipeTagTag(r: Row<RecipeTag>): Id { r.val.tag }
  function QuantityRecipe(r: Row<IngredientQuantity>): Id { r.val.recipe }
  function QuantityIngredient(r: Row<IngredientQuantity>): Id { r.val.ingredient }
  function FavoriteUser(r: Row<Favorite>): Id { r.val.user }
  function FavoriteRecipe(r: Row<Favorite>): Id { r.val.recipe }
  function CartUser(r: Row<ShoppingCart>): Id { r.val.user }
  function CartRecipe(r: Row<ShoppingCart>): Id { r.val.recipe }
  function FollowUser(r: Row<Follow>): Id { r.val.user }
  function FollowFollowing(r: Row<Follow>): Id { r.val.following }

  // Table invariants. `users`, `tags`, ... are the id sets of the referenced tables.

  ghost predicate UsersOk(t: seq<Row<User>>)
  {
    Descending(t) && Unique(t, UserEmail) && Unique(t, UserUsername)
    && forall r | r in t :: UserFits(r.val)
  }

  ghost predicate TagsOk(t: seq<Row<Tag>>)
  {
    Descending(t) && Unique(t, TagName) && Unique(t, TagColor) && Unique(t, TagSlug)
    && forall r | r in t :: TagFits(r.val)
  }

  ghost predicate IngredientsOk(t: seq<Row<Ingredient>>)
  {
    Descending(t) && Unique(t, IngredientName)
    && forall r | r in t :: IngredientFits(r.val)
  }

  ghost predicate RecipesOk(t: seq<Row<Recipe>>, users: set<Id>)
  {
    Descending(t)
    && forall r | r in t :: RecipeFits(r.val) && r.val.author in users
  }

  ghost predicate RecipeTagsOk(t: seq<Row<RecipeTag>>, recipes: set<Id>, tags: set<Id>)
  {
    Descending(t) && Unique(t, RecipeTagPair)
    && forall r | r in t :: r.val.recipe in recipes && r.val.tag in tags
  }

  ghost predicate QuantitiesOk(t: seq<Row<IngredientQuantity>>, ingredients: set<Id>, recipes: set<Id>)
  {
    Descending(t) && Unique(t, QuantityPair)
    && forall r | r in t :: SmallPositive(r.val.amount) && r.val.ingredient in ingredients && r.val.recipe in recipes
  }

  ghost predicate FavoritesOk(t: seq<Row<Favorite>>, users: set<Id>, recipes: set<Id>)
  {
    Descending(t) && Unique(t, FavoritePair)
    && forall r | r in t :: r.val.user in users && r.val.recipe in recipes
  }

  ghost predicate CartsOk(t: seq<Row<ShoppingCart>>, users: set<Id>, recipes: set<Id>)
  {
    Descending(t) && Unique(t, CartPair)
    && forall r | r in t :: r.val.user in users && r.val.recipe in recipes
  }

  ghost predicate FollowsOk(t: seq<Row<Follow>>, users: set<Id>)
  {
    Descending(t) && Unique(t, FollowPair)
    && forall r | r in t :: r.val.user != r.val.following && r.val.user in users && r.val.following in users
  }

  /** The constraints only forbid a repeated pair and a self-pair, so a follow
      in each direction between two users can be stored side by side. */
  lemma MutualFollowsAllowed(t: seq<Row<Follow>>, users: set<Id>, a: Id, b: Id, first: Id, second: Id)
    requires FollowsOk(t, users) && Below(t, first) && first < second
    requires a != b && a in users && b in users
    requires !Taken(t, FollowPair, (a, b)) && !Taken(t, FollowPair, (b, a))
    ensures FollowsOk([Row(second, Follow(b, a)), Row(first, Follow(a, b))] + t, users)
  {
    var once := [Row(first, Follow(a, b))] + t;
    InsertKeepsDescending(t, first, Follow(a, b));
    InsertKeepsUnique(t, first, Follow(a, b), FollowPair);
    assert !Taken(once, FollowPair, (b, a));
    InsertKeepsDescending(once, second, Follow(b, a));
    InsertKeepsUnique(once, second, Follow(b, a), FollowPair);
    assert [Row(second, Follow(b, a)), Row(first, Follow(a, b))] + t == [Row(second, Follow(b, a))] + once;
  }

  /** A self-follow can never be part of a valid follow table. */
  lemma SelfFollowRejected(t: seq<Row<Follow>>, users: set<Id>, id: Id, u: Id)
    ensures !FollowsOk([Row(id, Follow(u, u))] + t, users)
  {
    assert Row(id, Follow(u, u)) in [Row(id, Follow(u, u))] + t;
  }
}
