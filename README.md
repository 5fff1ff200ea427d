# foodgram recipe store and shopping-list download, in Dafny

A model of the data core of the foodgram recipe backend (a Django project):

- **The store.** Modules `Rows`, `Schema` and `Store` hold it.
  - Users, tags, ingredients and recipes are stored as rows.
  - So are the recipe–tag links, ingredient quantities, favorites, shopping-cart entries and follows.
  - The store enforces what the two `models.py` files declare. That covers unique fields and unique pairs, the no-self-follow check, `MinValueValidator(1)` on `amount` and `cooking_time`, the `PositiveSmallIntegerField` range, `max_length` bounds and foreign keys.
  - It performs the `on_delete=models.CASCADE` deletes.
- **The tables.** Each table is a sequence of `Row(id, val)` kept newest first, as `ordering = ['-id']` gives it.
  - `Store.Database` is a class whose fields are these tables plus the next primary key.
  - `Valid()` says every table meets its constraints and every foreign key resolves.
  - Every insert and delete keeps `Valid()`. Each states its new contents exactly. Each insert says exactly when it is rejected, and a rejected insert changes nothing.
- **The shopping-list download.** Module `ShoppingList` models `download_shopping_cart`.
  - `Aggregate` is the imperative method. It has the two nested loops, which fold into an insertion-ordered dictionary of `[total, unit]` slots, and the emission loop.
  - It is proved equal to `Report(CartEntries(...))`, a functional specification over the entries the loops visit.
  - The lemmas then say what each line means in terms of the tables, listed below.
- **The views.** Module `Views` models the `favorite` and `shopping_cart` POST/DELETE actions, the download, and the `add_csv` loader working over an already-parsed row list.

### What each download line means

- Its total is the sum of `amount` over the quantity rows of the recipes in the user's cart whose ingredient has that name. That total is at least 1.
- Each name appears on exactly one line.
- A name is listed exactly when some cart recipe uses an ingredient of that name.
- Names come in order of first appearance.
- The unit is the named ingredient's own `measurement_unit`. This holds because ingredient names are unique.
- Grouping by name is grouping by ingredient identity.
- Other users' carts, and the order of the cart rows, do not matter.

### Behaviour of the code as written

- **Non-staff `add_csv`.** The non-staff branch of `add_csv` (backend/api/views.py:131) builds its response with `status.HTTP`. That attribute does not exist, so the request ends in an uncaught exception. `Views.AddCsv` returns `Err(ServerError)` there and writes nothing, which is what that exception amounts to.
- **Anonymous `favorite` and `shopping_cart`.** Both actions declare `IsAuthenticated`, so an anonymous caller gets `NotAuthenticated` before anything else is looked at.

## Model

| member | source | states |
|---|---|---|
| Rows.Drop | backend/recipes_and_ingridients/models.py:76-81 | A cascading delete keeps exactly the rows whose foreign key is not among the deleted ids. It keeps them in order and never grows the table. |
| Rows.InsertKeepsDescending | backend/recipes_and_ingridients/models.py:18-19 | A row whose id is above every id in use keeps the table in `-id` order. |
| Rows.InsertKeepsUnique | backend/recipes_and_ingridients/models.py:92-95 | Adding a row keeps a uniqueness constraint if and only if no row already holds its key. |
| Rows.DropKeepsDescending | backend/recipes_and_ingridients/models.py:89-90 | A delete keeps the remaining rows in `-id` order. |
| Rows.DropKeepsUnique | backend/recipes_and_ingridients/models.py:91-96 | A delete keeps every uniqueness constraint. |
| Rows.SameIdSameRow | backend/recipes_and_ingridients/models.py:34-35 | In an `-id`-ordered table an id names at most one row. |
| Rows.SameKeySameRow | backend/recipes_and_ingridients/models.py:27-29 | Under a uniqueness constraint a key value names at most one row. |
| Rows.IdsAfterDrop | backend/recipes_and_ingridients/models.py:76-78 | Deleting by primary key removes exactly the given ids from the table's id set. |
| Rows.DropNothing | backend/recipes_and_ingridients/models.py:79-81 | A cascade that matches no row leaves the table as it was. |
| Rows.DropOne | backend/api/views.py:67 | Deleting one existing row by its primary key shortens the table by exactly one. |
| Rows.DropTheRow | backend/api/views.py:64-67 | Deleting the unique row holding a `(user, recipe)` pair removes exactly the rows holding that pair, which is one row. |
| Schema.MutualFollowsAllowed | backend/users/models.py:42-50 | A follows B and B follows A can both be stored. The constraints forbid only repeated pairs and self-pairs. |
| Schema.SelfFollowRejected | backend/users/models.py:46-49 | No follow table that contains a self-follow meets `prevent_self_follow`. |
| Store.IdsAfterAuthorDrop | backend/recipes_and_ingridients/models.py:43-46 | Deleting a user's recipes removes exactly the ids of the recipes that user wrote. |
| Store.WithoutRecipe | backend/recipes_and_ingridients/models.py:79-81 | Deleting a recipe removes the recipe and every tag link, quantity (79-81), favorite (105-108) and cart row (125-128) naming it. Every other row stays and the other tables are unchanged. |
| Store.WithoutIngredient | backend/recipes_and_ingridients/models.py:76-78 | Deleting an ingredient removes it and exactly the quantity rows naming it. Nothing else changes. |
| Store.WithoutTag | backend/recipes_and_ingridients/models.py:55-57 | Deleting a tag removes it and exactly its recipe links. Nothing else changes. |
| Store.WithoutUser | backend/recipes_and_ingridients/models.py:43-46 | Deleting a user leaves tags and ingredients unchanged. |
| Store.UserDeleteCascades | backend/recipes_and_ingridients/models.py:43-46 | Deleting a user removes them and the recipes they wrote, plus every tag link, quantity, favorite and cart row of those recipes. It also removes their own favorites and cart rows (101-104, 121-124) and every follow they are on either side of. Every other row stays. |
| Store.WithoutRecipeConsistent | backend/recipes_and_ingridients/models.py:79-81 | After a recipe cascade every constraint still holds and no foreign key dangles. |
| Store.WithoutIngredientConsistent | backend/recipes_and_ingridients/models.py:76-78 | After an ingredient cascade every constraint still holds and no foreign key dangles. |
| Store.WithoutTagConsistent | backend/recipes_and_ingridients/models.py:55-57 | After a tag cascade every constraint still holds and no foreign key dangles. |
| Store.WithoutUserConsistent | backend/users/models.py:31-38 | After a user cascade every constraint still holds and no foreign key dangles, even though it spans recipes and follows. |
| Store.Database.constructor | backend/recipes_and_ingridients/models.py:7-19 | An empty store meets every constraint. |
| Store.Database.InsertUser | backend/users/models.py:6-17 | The user is stored if and only if the email is ≤ 254, the username and names are ≤ 150, and both email and username are free. Otherwise the result is Invalid and nothing changes. |
| Store.Database.InsertTag | backend/recipes_and_ingridients/models.py:7-16 | The tag is stored if and only if the name and slug are ≤ 100, the color is ≤ 7, the slug is a non-empty slug, and name, color and slug are all free. Otherwise nothing changes. |
| Store.Database.InsertIngredient | backend/recipes_and_ingridients/models.py:26-32 | The ingredient is stored if and only if both fields are ≤ 100 and the name is free. Otherwise nothing changes. |
| Store.Database.InsertRecipe | backend/recipes_and_ingridients/models.py:42-65 | The recipe is stored if and only if the author exists, name and text are ≤ 200, and `cooking_time` is in 1..32767. Otherwise nothing changes. |
| Store.Database.InsertRecipeTag | backend/recipes_and_ingridients/models.py:55-57 | The link is stored if and only if the recipe and tag exist and the pair is new. Otherwise nothing changes. |
| Store.Database.InsertQuantity | backend/recipes_and_ingridients/models.py:75-96 | The quantity is stored if and only if `amount` is in 1..32767, the ingredient and recipe exist, and the `(ingredient, recipe)` pair is new. Otherwise nothing changes. |
| Store.Database.InsertFavorite | backend/recipes_and_ingridients/models.py:100-116 | The favorite is stored if and only if the user and recipe exist and the pair is new. A duplicate is rejected with nothing changed. |
| Store.Database.InsertCart | backend/recipes_and_ingridients/models.py:120-137 | The cart row is stored if and only if the user and recipe exist and the pair is new. A duplicate is rejected with nothing changed. |
| Store.Database.InsertFollow | backend/users/models.py:30-50 | The follow is stored if and only if it is not a self-follow, both users exist, and the pair is new. Otherwise nothing changes. |
| Store.Database.GetOrCreateIngredient | backend/api/views.py:124-127 | An existing row with exactly these values is returned with nothing changed. Otherwise one row is created if and only if the constraints admit it. A failure changes nothing. |
| Store.Database.DeleteRecipe | backend/recipes_and_ingridients/models.py:79-81 | The new contents are the recipe cascade of the old, and validity is kept. |
| Store.Database.DeleteIngredient | backend/recipes_and_ingridients/models.py:76-78 | The new contents are the ingredient cascade of the old, and validity is kept. |
| Store.Database.DeleteTag | backend/recipes_and_ingridients/models.py:55-57 | The new contents are the tag cascade of the old, and validity is kept. |
| Store.Database.DeleteUser | backend/users/models.py:31-38 | The new contents are the user cascade of the old, and validity is kept. |
| Store.Database.DeleteFavorite | backend/api/views.py:67 | Only the favorite row with that id goes. |
| Store.Database.DeleteCart | backend/api/views.py:88 | Only the cart row with that id goes. |
| ShoppingList.IngredientOf | backend/api/views.py:102 | Following a quantity's foreign key yields the ingredient row with that id. |
| ShoppingList.RecipeEntries | backend/api/views.py:97-99 | The inner loop visits at most one entry per quantity row, and none for a recipe that has no quantity rows. |
| ShoppingList.CartEntries | backend/api/views.py:95-100 | The nested loops visit nothing for a user with no cart rows. |
| ShoppingList.Names | backend/api/views.py:101-105 | The dictionary's keys are pairwise distinct, and every visited ingredient name is among them. |
| ShoppingList.Report | backend/api/views.py:112-113 | No two emitted lines share a name. |
| ShoppingList.TotalOfAbsent | backend/api/views.py:103 | A name never visited totals 0. |
| ShoppingList.FirstOccurrenceTotal | backend/api/views.py:103 | The first row seen for a name stores exactly its amount, because the default `[0, ' ']` adds nothing. |
| ShoppingList.MirrorsStep | backend/api/views.py:101-105 | One `result.update` keeps the dictionary equal to the specification. A new key is appended, an existing key keeps its place, its total grows by the amount, and its unit becomes the row's unit. |
| ShoppingList.Accumulate | backend/api/views.py:101-105 | One `result.update`, with the `[0, ' ']` default, extends the mirrored entries by this one entry. |
| ShoppingList.VisitRow | backend/api/views.py:100-105 | One pass of the inner loop folds in this quantity row's entry, and the row of another recipe folds in nothing. |
| ShoppingList.MirrorReport | backend/api/views.py:112-113 | Writing `result.items()` in order yields exactly the report. |
| ShoppingList.NamesOccur | backend/api/views.py:101-105 | Every key comes from some visited row. |
| ShoppingList.LastUnitOccurs | backend/api/views.py:104 | The stored unit is the unit of the last visited row with that name. |
| ShoppingList.TotalAppend | backend/api/views.py:96-100 | The total over two runs of rows is the sum of their totals. |
| ShoppingList.ListedTotalPositive | backend/recipes_and_ingridients/models.py:82-87 | With every amount at least 1, a listed name totals at least 1 and no total is negative. |
| ShoppingList.FirstIndexSnoc | backend/api/views.py:101 | A row appended later does not move an earlier first appearance. |
| ShoppingList.NamesInFirstAppearanceOrder | backend/api/views.py:101 | Keys come out in order of each name's first appearance. |
| ShoppingList.AmountInNothing | backend/api/views.py:95 | An empty cart contributes nothing. |
| ShoppingList.AmountInSplit | backend/api/views.py:96-99 | Adding a recipe to the cart adds exactly that recipe's amounts. |
| ShoppingList.RecipeTotal | backend/api/views.py:97-105 | One recipe's rows contribute, per name, the sum of that recipe's amounts of ingredients with that name. |
| ShoppingList.CartTotal | backend/api/views.py:94-105 | The total per name is the sum of `amount` over the quantity rows whose recipe is in the user's cart and whose ingredient has that name. The cart's unique pairs mean no recipe counts twice. |
| ShoppingList.CartOrderIrrelevant | backend/api/views.py:95-96 | Reordering the cart rows does not change any total. |
| ShoppingList.RecipeEntriesMembers | backend/api/views.py:97-100 | The rows visited for a recipe are exactly that recipe's quantity rows. |
| ShoppingList.CartEntriesMembers | backend/api/views.py:95-100 | The rows visited are exactly the quantity rows of the recipes in the user's cart. |
| ShoppingList.ListedIffUsed | backend/api/views.py:100-105 | A name is a key if and only if some cart recipe has an ingredient with that name. |
| ShoppingList.ListedUnitCatalogued | backend/api/views.py:104 | Every reported (name, unit) pair is an ingredient row. |
| ShoppingList.UnitIsIngredientUnit | backend/recipes_and_ingridients/models.py:27-29 | With unique ingredient names, the reported unit is that ingredient's `measurement_unit`, whatever order the rows were visited in. |
| ShoppingList.ByNameIsById | backend/recipes_and_ingridients/models.py:27-29 | With unique names, summing by ingredient name equals summing by ingredient id. |
| ShoppingList.OwnCartsSuffice | backend/api/views.py:95 | Only the requesting user's cart rows are walked. |
| ShoppingList.OwnCarts | backend/api/views.py:95 | `filter(user=...)` keeps exactly the cart rows of that user, and no more rows than there are. |
| ShoppingList.OtherUsersIgnored | backend/api/views.py:95 | Two stores that agree on this user's cart rows give the same download. |
| ShoppingList.ReportTotals | backend/api/views.py:94-105 | Every line's total is the cart-wide sum for its name, and at least 1. |
| ShoppingList.ReportUnits | backend/api/views.py:104 | Every line's unit is its ingredient's unit. |
| ShoppingList.ReportMatchesCatalogue | backend/api/views.py:100-105 | Every line names an ingredient row, and every ingredient of a cart recipe has a line. |
| ShoppingList.AddRecipe | backend/api/views.py:97-105 | The inner loop leaves the dictionary equal to the specification extended by that recipe's rows. |
| ShoppingList.Aggregate | backend/api/views.py:93-114 | The nested loops and the write loop produce exactly `Report` of the entries visited for the user. |
| Views.FavoritePost | backend/api/views.py:53-60 | An anonymous caller gets 401. Otherwise the pair is stored if and only if the user and recipe exist and the pair is new, and anything else is 400 with nothing changed. |
| Views.FavoriteDelete | backend/api/views.py:61-68 | Anonymous gets 401. A missing recipe gets 404, as does a missing favorite. When the user has favorited an existing recipe the delete succeeds. On success exactly the one `(user, recipe)` row goes and every other table and row stays. |
| Views.ShoppingCartPost | backend/api/views.py:74-81 | The same as the favorite POST, for cart rows. |
| Views.ShoppingCartDelete | backend/api/views.py:82-89 | The same as the favorite DELETE, for cart rows: 401, 404 and 404 on the same conditions, success when the cart row exists, and only that row goes. |
| Views.DownloadShoppingCart | backend/api/views.py:93-114 | On a valid store the lines are the report. Names are distinct and totals are the cart-wide sums, each ≥ 1. Units are the ingredients' units, every (name, unit) is catalogued, and every cart ingredient is listed. |
| Views.ImportRow | backend/api/views.py:123-129 | One `get_or_create` changes only the ingredient table. If the pair fits and its name is free, exactly this ingredient is put in front. Otherwise the table is unchanged. The names in use grow by the name if and only if the pair fits. |
| Views.AddCsv | backend/api/views.py:117-131 | A caller who is not authenticated staff gets the exception and nothing changes. For staff only ingredients change: old rows are kept and each new row comes from a csv row. The rows created, newest first, are exactly `Imported` of the csv rows, and afterwards every usable row's name is in the catalogue. |
| Views.IsStaff | backend/api/views.py:119 | Only an authenticated caller whose user row exists can be staff. |
| Views.Imported | backend/api/views.py:122-129 | Each csv row creates at most one ingredient. |
| Views.ImportedFresh | backend/api/views.py:122-129 | Every created ingredient comes from a csv row and had a name not yet in use, and no two created ingredients share a name. |
| Views.ImportedCovers | backend/api/views.py:122-129 | After the loop, every usable row's name was already in use or is created. |
| Views.FirstUsableRowWins | backend/recipes_and_ingridients/models.py:27-29 | The first usable row with a free name is created, and a later row with the same name and another unit is skipped. So `salt,g` then `salt,kg` creates only `salt` in `g`. |
| Views.ImportedStep | backend/api/views.py:122-129 | Handling row `i` either creates its ingredient and takes its name, or skips it. |
| Views.ImportedAdvance | backend/api/views.py:122-129 | Handling one row keeps the ingredients still to be created, together with those created so far, equal to what `Imported` gives for all rows. |
| Views.ImportedTable | backend/api/views.py:122-129 | A table extended by exactly `Imported` gets each new row from a csv row, and every usable row's name is in use. |
| Views.LoadStep | backend/api/views.py:123-129 | The table as one `get_or_create` leaves it is still the old rows plus what `Imported` gives for the rows handled so far. |
| Views.LoadRow | backend/api/views.py:122-129 | One pass of the loop keeps the store valid, changes only ingredients and keeps the `Imported` invariant. |
| Views.LoadRows | backend/api/views.py:122-129 | The loop puts in front of the old ingredient rows exactly the ingredients `Imported` gives, and changes nothing else. |

## Left out

- **HTTP shaping.** Requests and responses are reduced to a caller, parameters and a `Result`, so status objects, response bodies and the `Content-Disposition` header are not modelled. The serializer output returned by POST is left out too. The POST models return the new row's id instead.
- **CSV format.** Quoting and escaping by `csv.writer` and `csv.reader` are left out. The download is a sequence of `(name, total, unit)` lines, and `add_csv` takes the rows already split into fields.
- **File and loader I/O.** Reading `./ingredients.csv`, and the `load_data.py` command, are not part of this model.
- **Serializers.** `FavoriteSerializer`, `ShoppingCartSerializer`, the permission classes, filters and pagination are not part of this model. POST validation is taken to be the database constraints: a missing recipe or a duplicate pair is a 400.
- **Non-numeric `pk`.** The `pk` URL parameter is taken to be a number. A non-numeric `pk` is not modelled.
- **Anonymous download.** `download_shopping_cart` is modelled for a logged-in user's id. The anonymous caller, for whom the `filter(user=...)` lookup fails, is left out.
- **Other fields and auth.** The recipe `image`, passwords and the rest of `AbstractUser` are left out. So are e-mail syntax validation, the `blank=False` form checks, and Unicode case handling.
- **Concurrency.** Concurrency and transactions are left out. Every operation runs alone.
- **One id counter.** One counter hands out primary keys for all tables, where the database keeps one sequence per table. Only freshness and the `-id` order matter here.
- **Length limits.** The `max_length` bounds, including the one on the `TextField` `text`, are checked on every insert. This also covers `get_or_create`, where the database rejects an over-long value and `add_csv` skips the row.
- **Amount totals.** `Total`, `AmountIn` and `ShoppingList.Aggregate` sum with unbounded integers, matching Python's integers in the view.
- **Fallthrough branches.** The `return None` of `favorite` and `shopping_cart` for other HTTP methods is left out: the action accepts only POST and DELETE.
