/** The request handlers of `RecipeViewSet` that change or read the store
    directly (`favorite`, `shopping_cart`, `download_shopping_cart`) and the
    `add_csv` loader. A request is reduced to who sends it and its parameters;
    a response to a `Result`. */
module Views {
  import opened Rows
  import opened Schema
  import opened Store
  import opened ShoppingList

  /** `request.user`: the anonymous user, or the id of a logged-in user. */
  datatype Caller = Anonymous | Authenticated(id: Id)

  /** `user.is_authenticated and user.is_staff`. */
  predicate IsStaff(users: seq<Row<User>>, caller: Caller): (staff: bool)
    ensures staff ==> caller.Authenticated? && caller.id in Ids(users)
  {
    caller.Authenticated? && exists r | r in users :: r.id == caller.id && r.val.isStaff
  }

  /** The `(name, measurement_unit)` pairs of the csv rows that have both columns. */
  function CsvIngredients(rows: seq<seq<string>>): set<Ingredient>
  {
    set row | row in rows && |row| >= 2 :: Ingredient(row[0], row[1])
  }

  /** A csv row `get_or_create` can store as a new row: two columns whose
      values fit the field lengths. */
  predicate Usable(row: seq<string>)
  {
    |row| >= 2 && IngredientFits(Ingredient(row[0], row[1]))
  }

  /** The ingredient names in use. */
  function NameSet(t: seq<Row<Ingredient>>): set<string>
  {
    set r | r in t :: r.val.name
  }

  /** The values of a table, in its order. */
  function Values(t: seq<Row<Ingredient>>): (vs: seq<Ingredient>)
    ensures |vs| == |t|
    ensures forall k | 0 <= k < |t| :: vs[k] == t[k].val
  {
    if t == [] then [] else [t[0].val] + Values(t[1..])
  }

  /** The ingredients `add_csv` creates from `rows` when the names in `taken`
      are in use, newest first. A usable row whose name is free is created
      and takes its name; any other row is skipped: too few columns
      (`IndexError`), a value too long, the same name and unit (found), or the
      same name with another unit (`IntegrityError` on the unique name). */
  function Imported(taken: set<string>, rows: seq<seq<string>>): (created: seq<Ingredient>)
    ensures |created| <= |rows|
    decreases |rows|
  {
    if rows == [] then []
    else if Usable(rows[0]) && rows[0][0] !in taken then
      Imported(taken + {rows[0][0]}, rows[1..]) + [Ingredient(rows[0][0], rows[0][1])]
    else Imported(taken, rows[1..])
  }

  /** Every created ingredient comes from a csv row, its name was free, and no
      two created ingredients share a name. */
  lemma {:induction false} ImportedFresh(taken: set<string>, rows: seq<seq<string>>)
    ensures forall v | v in Imported(taken, rows) :: v.name !in taken && v in CsvIngredients(rows)
    ensures forall i, j | 0 <= i < j < |Imported(taken, rows)| :: Imported(taken, rows)[i].name != Imported(taken, rows)[j].name
    decreases |rows|
  {
    if rows != [] {
      var row := rows[0];
      assert forall r | r in rows[1..] :: r in rows;
      if Usable(row) && row[0] !in taken {
        ImportedFresh(taken + {row[0]}, rows[1..]);
      } else {
        ImportedFresh(taken, rows[1..]);
      }
    }
  }

  /** Every usable row's name is in use afterwards: it was taken before, or
      an ingredient of that name is created. */
  lemma {:induction false} ImportedCovers(taken: set<string>, rows: seq<seq<string>>)
    ensures forall row | row in rows && Usable(row) ::
      row[0] in taken || exists v | v in Imported(taken, rows) :: v.name == row[0]
    decreases |rows|
  {
    if rows != [] {
      var row := rows[0];
      assert forall r | r in rows :: r == row || r in rows[1..];
      if Usable(row) && row[0] !in taken {
        ImportedCovers(taken + {row[0]}, rows[1..]);
        assert Ingredient(row[0], row[1]) in Imported(taken, rows);
      } else {
        ImportedCovers(taken, rows[1..]);
      }
    }
  }

  /** The first usable row with a free name is the one created: a later row
      with that name and another unit is skipped. */
  lemma {:induction false} FirstUsableRowWins(taken: set<string>, rows: seq<seq<string>>, k: nat)
    requires k < |rows| && Usable(rows[k]) && rows[k][0] !in taken
    requires forall i | 0 <= i < k :: !(Usable(rows[i]) && rows[i][0] == rows[k][0])
    ensures Ingredient(rows[k][0], rows[k][1]) in Imported(taken, rows)
    ensures forall v | v in Imported(taken, rows) && v.name == rows[k][0] :: v.measurementUnit == rows[k][1]
    decreases k
  {
    if k > 0 {
      var rest := rows[1..];
      assert rest[k - 1] == rows[k];
      assert forall i | 0 <= i < k - 1 :: rest[i] == rows[i + 1];
      if Usable(rows[0]) && rows[0][0] !in taken {
        FirstUsableRowWins(taken + {rows[0][0]}, rest, k - 1);
      } else {
        FirstUsableRowWins(taken, rest, k - 1);
      }
    }
    ImportedFresh(taken, rows);
    var created := Imported(taken, rows);
    forall v | v in created && v.name == rows[k][0] ensures v.measurementUnit == rows[k][1] {
      var i :| 0 <= i < |created| && created[i] == v;
      var j :| 0 <= j < |created| && created[j] == Ingredient(rows[k][0], rows[k][1]);
      assert i == j;
    }
  }

  /** Unfolding `Imported` at position `i` of the rows. */
  lemma ImportedStep(taken: set<string>, rows: seq<seq<string>>, i: nat)
    requires i < |rows|
    ensures Imported(taken, rows[i..])
         == if Usable(rows[i]) && rows[i][0] !in taken
            then Imported(taken + {rows[i][0]}, rows[i + 1..]) + [Ingredient(rows[i][0], rows[i][1])]
            else Imported(taken, rows[i + 1..])
  {
    assert rows[i..][1..] == rows[i + 1..];
  }

  /** One row of the loop: the ingredients still to be created from row `i`
      on, in front of those created so far, do not change when row `i` is
      handled, whether it creates its ingredient or is skipped. */
  lemma ImportedAdvance(taken: set<string>, taken': set<string>, rows: seq<seq<string>>, i: nat,
                        added: seq<Row<Ingredient>>, added': seq<Row<Ingredient>>)
    requires i < |rows|
    requires Usable(rows[i]) && rows[i][0] !in taken ==>
      taken' == taken + {rows[i][0]} && |added'| == |added| + 1 && added'[1..] == added
      && added'[0].val == Ingredient(rows[i][0], rows[i][1])
    requires !(Usable(rows[i]) && rows[i][0] !in taken) ==> taken' == taken && added' == added
    ensures Imported(taken, rows[i..]) + Values(added) == Imported(taken', rows[i + 1..]) + Values(added')
  {
    ImportedStep(taken, rows, i);
    if Usable(rows[i]) && rows[i][0] !in taken {
      assert Values(added') == [added'[0].val] + Values(added);
    }
  }

  /** POST `recipes/{pk}/favorite/`: the serializer stores `(user, pk)` when
      the recipe exists and the pair is new; otherwise 400. */
  method FavoritePost(db: Database, caller: Caller, pk: Id) returns (res: Result<Id>)
    requires db.Valid()
    modifies db
    ensures db.Valid()
    ensures caller.Anonymous? ==> res == Err(NotAuthenticated)
    ensures caller.Authenticated? ==>
      (res.Ok? <==> (caller.id in Ids(old(db.users)) && pk in Ids(old(db.recipes))
                     && !Taken(old(db.favorites), FavoritePair, (caller.id, pk))))
    ensures caller.Authenticated? && res.Ok? ==>
      db.Contents() == old(db.Contents()).(favorites := [Row(res.value, Favorite(caller.id, pk))] + old(db.favorites))
    ensures caller.Authenticated? && res.Err? ==> res.error == Invalid
    ensures res.Err? ==> db.Contents() == old(db.Contents())
  {
    if caller.Anonymous? {
      return Err(NotAuthenticated);
    }
    res := db.InsertFavorite(Favorite(caller.id, pk));
  }

  /** DELETE `recipes/{pk}/favorite/`: 404 when the recipe does not exist, 404
      when the caller has not favorited it, otherwise that one row goes. */
  method FavoriteDelete(db: Database, caller: Caller, pk: Id) returns (res: Result<()>)
    requires db.Valid()
    modifies db
    ensures db.Valid()
    ensures caller.Anonymous? ==> res == Err(NotAuthenticated)
    ensures caller.Authenticated? && pk !in Ids(old(db.recipes)) ==> res == Err(NotFound)
    ensures caller.Authenticated? && pk in Ids(old(db.recipes)) && !Present(old(db.favorites), Favorite(caller.id, pk)) ==>
      res == Err(NotFound)
    ensures caller.Authenticated? && pk in Ids(old(db.recipes)) && Present(old(db.favorites), Favorite(caller.id, pk)) ==>
      res.Ok?
    ensures res.Err? ==> db.Contents() == old(db.Contents())
    ensures res.Ok? ==> caller.Authenticated?
    ensures res.Ok? ==> db.Contents() == old(db.Contents()).(favorites := db.favorites)
    ensures res.Ok? ==> forall f | f in old(db.favorites) :: f in db.favorites <==> f.val != Favorite(caller.id, pk)
    ensures res.Ok? ==> (forall f | f in db.favorites :: f in old(db.favorites)) && |db.favorites| == |old(db.favorites)| - 1
  {
    if caller.Anonymous? {
      return Err(NotAuthenticated);
    }
    if pk !in Ids(db.recipes) {
      return Err(NotFound);
    }
    var wanted := Favorite(caller.id, pk);
    if !Present(db.favorites, wanted) {
      return Err(NotFound);
    }
    var f :| f in db.favorites && f.val == wanted;
    DropTheRow(db.favorites, FavoritePair, f);
    db.DeleteFavorite(f.id);
    res := Ok(());
  }

  /** POST `recipes/{pk}/shopping_cart/`. */
  method ShoppingCartPost(db: Database, caller: Caller, pk: Id) returns (res: Result<Id>)
    requires db.Valid()
    modifies db
    ensures db.Valid()
    ensures caller.Anonymous? ==> res == Err(NotAuthenticated)
    ensures caller.Authenticated? ==>
      (res.Ok? <==> (caller.id in Ids(old(db.users)) && pk in Ids(old(db.recipes))
                     && !Taken(old(db.carts), CartPair, (caller.id, pk))))
    ensures caller.Authenticated? && res.Ok? ==>
      db.Contents() == old(db.Contents()).(carts := [Row(res.value, ShoppingCart(caller.id, pk))] + old(db.carts))
    ensures caller.Authenticated? && res.Err? ==> res.error == Invalid
    ensures res.Err? ==> db.Contents() == old(db.Contents())
  {
    if caller.Anonymous? {
      return Err(NotAuthenticated);
    }
    res := db.InsertCart(ShoppingCart(caller.id, pk));
  }

  /** DELETE `recipes/{pk}/shopping_cart/`. */
  method ShoppingCartDelete(db: Database, caller: Caller, pk: Id) returns (res: Result<()>)
    requires db.Valid()
    modifies db
    ensures db.Valid()
    ensures caller.Anonymous? ==> res == Err(NotAuthenticated)
    ensures caller.Authenticated? && pk !in Ids(old(db.recipes)) ==> res == Err(NotFound)
    ensures caller.Authenticated? && pk in Ids(old(db.recipes)) && !Present(old(db.carts), ShoppingCart(caller.id, pk)) ==>
      res == Err(NotFound)
    ensures caller.Authenticated? && pk in Ids(old(db.recipes)) && Present(old(db.carts), ShoppingCart(caller.id, pk)) ==>
      res.Ok?
    ensures res.Err? ==> db.Contents() == old(db.Contents())
    ensures res.Ok? ==> caller.Authenticated?
    ensures res.Ok? ==> db.Contents() == old(db.Contents()).(carts := db.carts)
    ensures res.Ok? ==> forall c | c in old(db.carts) :: c in db.carts <==> c.val != ShoppingCart(caller.id, pk)
    ensures res.Ok? ==> (forall c | c in db.carts :: c in old(db.carts)) && |db.carts| == |old(db.carts)| - 1
  {
    if caller.Anonymous? {
      return Err(NotAuthenticated);
    }
    if pk !in Ids(db.recipes) {
      return Err(NotFound);
    }
    var wanted := ShoppingCart(caller.id, pk);
    if !Present(db.carts, wanted) {
      return Err(NotFound);
    }
    var c :| c in db.carts && c.val == wanted;
    DropTheRow(db.carts, CartPair, c);
    db.DeleteCart(c.id);
    res := Ok(());
  }

  /** GET `recipes/download_shopping_cart/`: the lines of `cart.txt`. One line
      per ingredient name; its total is the sum of that ingredient's amounts
      over the recipes in the user's cart; its unit is the ingredient's unit;
      every ingredient of a cart recipe is listed. */
  method DownloadShoppingCart(db: Database, user: Id) returns (lines: seq<Line>)
    requires db.Valid()
    ensures lines == Report(CartEntries(db.carts, db.quantities, db.ingredients, user))
    ensures forall i, j | 0 <= i < j < |lines| :: lines[i].name != lines[j].name
    ensures forall k | 0 <= k < |lines| ::
      lines[k].total == AmountIn(db.quantities, db.ingredients, CartRecipes(db.carts, user), lines[k].name)
      && lines[k].total >= MinPositive
    ensures forall k, r | 0 <= k < |lines| && r in db.ingredients && r.val.name == lines[k].name ::
      lines[k].unit == r.val.measurementUnit
    ensures forall k | 0 <= k < |lines| :: Present(db.ingredients, Ingredient(lines[k].name, lines[k].unit))
    ensures forall q | q in db.quantities && q.val.recipe in CartRecipes(db.carts, user) ::
      exists k | 0 <= k < |lines| :: lines[k].name == IngredientOf(db.ingredients, q.val.ingredient).name
  {
    assert QuantitiesOk(db.quantities, Ids(db.ingredients), Ids(db.recipes));
    assert CartsOk(db.carts, Ids(db.users), Ids(db.recipes));
    assert IngredientsOk(db.ingredients);
    lines := Aggregate(db.carts, db.quantities, db.ingredients, user);
    ReportTotals(db.carts, db.quantities, db.ingredients, user, lines);
    ReportUnits(db.carts, db.quantities, db.ingredients, user, lines);
    ReportMatchesCatalogue(db.carts, db.quantities, db.ingredients, user, lines);
  }

  /** One iteration of `add_csv`'s loop: `get_or_create` the row's
      ingredient; a failure leaves the table as it was. */
  method ImportRow(db: Database, name: string, unit: string)
    requires db.Valid()
    modifies db
    ensures db.Valid()
    ensures db.Contents() == old(db.Contents()).(ingredients := db.ingredients)
    ensures forall r | r in old(db.ingredients) :: r in db.ingredients
    ensures forall r | r in db.ingredients && r !in old(db.ingredients) :: r.val == Ingredient(name, unit)
    ensures IngredientFits(Ingredient(name, unit)) ==> Taken(db.ingredients, IngredientName, name)
    ensures IngredientFits(Ingredient(name, unit)) && name !in NameSet(old(db.ingredients)) ==>
      |db.ingredients| == |old(db.ingredients)| + 1 && db.ingredients[1..] == old(db.ingredients)
      && db.ingredients[0].val == Ingredient(name, unit)
    ensures !(IngredientFits(Ingredient(name, unit)) && name !in NameSet(old(db.ingredients))) ==>
      db.ingredients == old(db.ingredients)
    ensures NameSet(db.ingredients) == NameSet(old(db.ingredients)) + (if IngredientFits(Ingredient(name, unit)) then {name} else {})
  {
    var v := Ingredient(name, unit);
    if Present(db.ingredients, v) {
      var r :| r in db.ingredients && r.val == v;
      assert name in NameSet(db.ingredients);
    }
    if Taken(db.ingredients, IngredientName, name) {
      var r :| r in db.ingredients && IngredientName(r.val) == name;
      assert name in NameSet(db.ingredients);
    }
    if name in NameSet(db.ingredients) {
      var r :| r in db.ingredients && r.val.name == name;
      assert IngredientName(r.val) == name;
    }
    ghost var before := db.ingredients;
    var _ := db.GetOrCreateIngredient(name, unit);
    if db.ingredients != before {
      assert db.ingredients == [db.ingredients[0]] + before;
      assert forall r | r in db.ingredients :: r == db.ingredients[0] || r in before;
    }
  }

  /** A table whose rows in front of `start` hold exactly what `Imported`
      creates: each of those comes from a csv row, and every usable row's
      name is in use. */
  lemma ImportedTable(start: seq<Row<Ingredient>>, added: seq<Row<Ingredient>>, rows: seq<seq<string>>)
    requires Values(added) == Imported(NameSet(start), rows)
    ensures forall r | r in added + start && r !in start :: r.val in CsvIngredients(rows)
    ensures forall row | row in rows && Usable(row) :: Taken(added + start, IngredientName, row[0])
  {
    var created := Imported(NameSet(start), rows);
    ImportedFresh(NameSet(start), rows);
    ImportedCovers(NameSet(start), rows);
    forall r | r in added + start && r !in start ensures r.val in CsvIngredients(rows) {
      var k :| 0 <= k < |added| && added[k] == r;
      assert created[k] == r.val;
    }
    forall row | row in rows && Usable(row) ensures Taken(added + start, IngredientName, row[0]) {
      if row[0] in NameSet(start) {
        var r :| r in start && r.val.name == row[0];
        assert r in added + start && IngredientName(r.val) == row[0];
      } else {
        var v :| v in created && v.name == row[0];
        var k :| 0 <= k < |created| && created[k] == v;
        assert added[k] in added + start && IngredientName(added[k].val) == row[0];
      }
    }
  }

  /** The table before and after row `i` of the loop, as `ImportRow` leaves
      it: the rows created so far, `added'`, are still what `Imported` gives
      for the rows already handled. */
  lemma LoadStep(start: seq<Row<Ingredient>>, rows: seq<seq<string>>, i: nat, added: seq<Row<Ingredient>>,
                 before: seq<Row<Ingredient>>, after: seq<Row<Ingredient>>)
    returns (added': seq<Row<Ingredient>>)
    requires i < |rows|
    requires before == added + start
    requires Imported(NameSet(start), rows) == Imported(NameSet(before), rows[i..]) + Values(added)
    requires Usable(rows[i]) && rows[i][0] !in NameSet(before) ==>
      |after| == |before| + 1 && after[1..] == before && after[0].val == Ingredient(rows[i][0], rows[i][1])
    requires !(Usable(rows[i]) && rows[i][0] !in NameSet(before)) ==> after == before
    requires NameSet(after) == NameSet(before) + (if Usable(rows[i]) then {rows[i][0]} else {})
    ensures after == added' + start
    ensures Imported(NameSet(start), rows) == Imported(NameSet(after), rows[i + 1..]) + Values(added')
  {
    var row := rows[i];
    if Usable(row) && row[0] !in NameSet(before) {
      added' := [after[0]] + added;
      assert added'[1..] == added;
      assert after == [after[0]] + after[1..];
    } else {
      added' := added;
      if Usable(row) {
        assert NameSet(before) + {row[0]} == NameSet(before);
      }
    }
    ImportedAdvance(NameSet(before), NameSet(after), rows, i, added, added');
  }

  /** Step `i` of `add_csv`'s loop, with `added` the rows created so far in
      front of the `start` table. */
  method LoadRow(db: Database, rows: seq<seq<string>>, i: nat, ghost start: seq<Row<Ingredient>>,
                 ghost added: seq<Row<Ingredient>>)
    returns (ghost added': seq<Row<Ingredient>>)
    requires i < |rows| && db.Valid()
    requires db.ingredients == added + start
    requires Imported(NameSet(start), rows) == Imported(NameSet(db.ingredients), rows[i..]) + Values(added)
    modifies db
    ensures db.Valid()
    ensures db.Contents() == old(db.Contents()).(ingredients := db.ingredients)
    ensures db.ingredients == added' + start
    ensures Imported(NameSet(start), rows) == Imported(NameSet(db.ingredients), rows[i + 1..]) + Values(added')
  {
    var row := rows[i];
    ghost var before := db.ingredients;
    if |row| >= 2 {
      ImportRow(db, row[0], row[1]);
    }
    added' := LoadStep(start, rows, i, added, before, db.ingredients);
  }

  /** The loop of `add_csv` over the csv rows, for a staff caller: the rows
      it creates, newest first, are those `Imported` gives, in front of the
      rows there were. */
  method LoadRows(db: Database, rows: seq<seq<string>>) returns (ghost added: seq<Row<Ingredient>>)
    requires db.Valid()
    modifies db
    ensures db.Valid()
    ensures db.Contents() == old(db.Contents()).(ingredients := db.ingredients)
    ensures db.ingredients == added + old(db.ingredients)
    ensures Values(added) == Imported(NameSet(old(db.ingredients)), rows)
  {
    ghost var start := db.ingredients;
    added := [];
    var i := 0;
    while i < |rows|
      invariant 0 <= i <= |rows|
      invariant db.Valid()
      invariant db.Contents() == old(db.Contents()).(ingredients := db.ingredients)
      invariant db.ingredients == added + start
      invariant Imported(NameSet(start), rows) == Imported(NameSet(db.ingredients), rows[i..]) + Values(added)
    {
      added := LoadRow(db, rows, i, start, added);
      i := i + 1;
    }
    assert rows[i..] == [];
  }

  /** `add_csv`: for a staff caller, `get_or_create` one ingredient per csv row
      with at least two columns, skipping a row whose creation fails; any
      other caller ends in the exception that `status.HTTP` raises. Only the
      ingredient table changes: rows are only added, each from a csv row, and
      afterwards every usable row's name is in the catalogue. */
  method AddCsv(db: Database, caller: Caller, rows: seq<seq<string>>) returns (res: Result<()>)
    requires db.Valid()
    modifies db
    ensures db.Valid()
    ensures !IsStaff(old(db.users), caller) ==> res == Err(ServerError) && db.Contents() == old(db.Contents())
    ensures IsStaff(old(db.users), caller) ==> res == Ok(())
    ensures db.Contents() == old(db.Contents()).(ingredients := db.ingredients)
    ensures forall r | r in old(db.ingredients) :: r in db.ingredients
    ensures forall r | r in db.ingredients && r !in old(db.ingredients) :: r.val in CsvIngredients(rows)
    ensures IsStaff(old(db.users), caller) ==>
      forall row | row in rows && |row| >= 2 && IngredientFits(Ingredient(row[0], row[1])) ::
        Taken(db.ingredients, IngredientName, row[0])
    ensures IsStaff(old(db.users), caller) ==>
      (&& |db.ingredients| == |old(db.ingredients)| + |Imported(NameSet(old(db.ingredients)), rows)|
       && db.ingredients[|db.ingredients| - |old(db.ingredients)|..] == old(db.ingredients)
       && Values(db.ingredients[..|db.ingredients| - |old(db.ingredients)|]) == Imported(NameSet(old(db.ingredients)), rows))
  {
    if !IsStaff(db.users, caller) {
      return Err(ServerError);
    }
    ghost var added := LoadRows(db, rows);
    ImportedTable(old(db.ingredients), added, rows);
    assert db.ingredients[..|added|] == added && db.ingredients[|added|..] == old(db.ingredients);
    res := Ok(());
  }
}
