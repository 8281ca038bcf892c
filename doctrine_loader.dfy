/** The doctrine loader: a strict top-down validation of an already parsed
    YAML tree into a list of doctrines, each a name and a list of categories,
    each category a list of ship names. Every shape error is reported with a
    fixed message and stops the whole load. */
module DoctrineLoader {
  import opened Outcomes
  import opened YamlTree

  datatype Category = Category(ships: seq<string>)

  datatype Doctrine = Doctrine(name: string, categories: seq<Category>)

  const NameKey: Yaml := Str("name")
  const CategoriesKey: Yaml := Str("categories")
  const CategoryKey: Yaml := Str("category")

  const NameNotFound := "Doctrine name not found."
  const NameNotString := "Doctrine name not a string."
  const NoCategories := "Doctrine has no categories."
  const ExpectedDoctrine := "Expected doctrine."
  const ExpectedDoctrineList := "Expected list of doctrines."
  const CategoryNotFound := "Could not find category."
  const ExpectedCategory := "Expected category."
  const ExpectedCategoryList := "Expected list of categories."
  /** The message of the panic raised by a ship entry that is not a string. */
  const ShipNotString := "Ship name was not a string"

  /** One doctrine from its hash: `name` is looked up first, then `categories`. */
  function LoadDoctrine(doctrine: map<Yaml, Yaml>): (r: Outcome<Doctrine>)
    ensures NameKey !in doctrine ==> r == Err(NameNotFound)
    ensures NameKey in doctrine && !doctrine[NameKey].Str? ==> r == Err(NameNotString)
    ensures NameKey in doctrine && doctrine[NameKey].Str? && CategoriesKey !in doctrine ==> r == Err(NoCategories)
    ensures NameKey in doctrine && doctrine[NameKey].Str? && CategoriesKey in doctrine &&
            !ManyCategoriesFromYaml(doctrine[CategoriesKey]).Ok? ==>
              r == ManyCategoriesFromYaml(doctrine[CategoriesKey]).PropagateFailure()
    ensures r.Ok? <==> NameKey in doctrine && doctrine[NameKey].Str? && CategoriesKey in doctrine &&
                       ManyCategoriesFromYaml(doctrine[CategoriesKey]).Ok?
    ensures r.Ok? ==> r.value.name == doctrine[NameKey].str &&
                      r.value.categories == ManyCategoriesFromYaml(doctrine[CategoriesKey]).value
  {
    var (name, rest) := Remove(doctrine, NameKey);
    var n :- OkOr(name, NameNotFound).AndThen(v => OkOr(AsString(v), NameNotString));
    var (categories, _) := Remove(rest, CategoriesKey);
    var cs :- OkOr(categories, NoCategories).AndThen(ManyCategoriesFromYaml);
    Ok(Doctrine(n, cs))
  }

  /** `Doctrine::from_yaml`: the node must be a hash. */
  function DoctrineFromYaml(yaml: Yaml): (r: Outcome<Doctrine>)
    ensures !yaml.Hash? ==> r == Err(ExpectedDoctrine)
    ensures yaml.Hash? ==> r == LoadDoctrine(yaml.entries)
  {
    OkOr(AsHash(yaml), ExpectedDoctrine).AndThen(LoadDoctrine)
  }

  /** `Doctrine::many_from_yaml`: the node must be a list, and every element a doctrine. */
  function ManyDoctrinesFromYaml(doctrines: Yaml): (r: Outcome<seq<Doctrine>>)
    ensures !doctrines.Array? ==> r == Err(ExpectedDoctrineList)
    ensures doctrines.Array? ==>
              (r.Ok? <==> forall i :: 0 <= i < |doctrines.items| ==> DoctrineFromYaml(doctrines.items[i]).Ok?)
    ensures r.Ok? ==> doctrines.Array? && |r.value| == |doctrines.items| &&
                      forall i :: 0 <= i < |r.value| ==> r.value[i] == DoctrineFromYaml(doctrines.items[i]).value
  {
    OkOr(AsVec(doctrines), ExpectedDoctrineList).AndThen(ds => Collect(ds, DoctrineFromYaml))
  }

  /** The value of one entry of a ship list; anything but a string panics. */
  function ShipName(ship: Yaml): (r: Outcome<string>)
    ensures r.Ok? <==> ship.Str?
    ensures r.Ok? ==> r.value == ship.str
    ensures !r.Ok? ==> r == Panic(ShipNotString)
  {
    match AsString(ship)
    case Some(name) => Ok(name)
    case None => Panic(ShipNotString)
  }

  /** `load_ships`: a node that is not a list holds no ships; a list must hold only strings. */
  function LoadShips(ships: Yaml): (r: Outcome<seq<string>>)
    ensures !r.Err?
    ensures !ships.Array? ==> r == Ok([])
    ensures ships.Array? ==> (r.Ok? <==> forall i :: 0 <= i < |ships.items| ==> ships.items[i].Str?)
    ensures r.Ok? && ships.Array? ==>
              |r.value| == |ships.items| && forall i :: 0 <= i < |r.value| ==> r.value[i] == ships.items[i].str
    ensures r.Panic? ==> r.message == ShipNotString
  {
    match AsVec(ships)
    case Some(names) => Collect(names, ShipName)
    case None => Ok([])
  }

  /** One category from its hash: the ships are the value under `category`. */
  function LoadCategory(category: map<Yaml, Yaml>): (r: Outcome<Category>)
    ensures CategoryKey !in category ==> r == Err(CategoryNotFound)
    ensures CategoryKey in category ==> !r.Err?
    ensures CategoryKey in category && LoadShips(category[CategoryKey]).Ok? ==>
              r == Ok(Category(LoadShips(category[CategoryKey]).value))
    ensures r.Panic? <==> CategoryKey in category && LoadShips(category[CategoryKey]).Panic?
    ensures CategoryKey in category && !LoadShips(category[CategoryKey]).Ok? ==>
              r == LoadShips(category[CategoryKey]).PropagateFailure()
  {
    var (ships, _) := Remove(category, CategoryKey);
    OkOr(ships, CategoryNotFound).AndThen(v => LoadShips(v).Map(names => Category(names)))
  }

  /** `Category::from_yaml`: the node must be a hash. */
  function CategoryFromYaml(yaml: Yaml): (r: Outcome<Category>)
    ensures !yaml.Hash? ==> r == Err(ExpectedCategory)
    ensures yaml.Hash? ==> r == LoadCategory(yaml.entries)
  {
    OkOr(AsHash(yaml), ExpectedCategory).AndThen(LoadCategory)
  }

  /** `Category::many_from_yaml`: the node must be a list, and every element a category. */
  function ManyCategoriesFromYaml(categories: Yaml): (r: Outcome<seq<Category>>)
    ensures !categories.Array? ==> r == Err(ExpectedCategoryList)
    ensures categories.Array? ==>
              (r.Ok? <==> forall i :: 0 <= i < |categories.items| ==> CategoryFromYaml(categories.items[i]).Ok?)
    ensures r.Ok? ==> categories.Array? && |r.value| == |categories.items| &&
                      forall i :: 0 <= i < |r.value| ==> r.value[i] == CategoryFromYaml(categories.items[i]).value
  {
    OkOr(AsVec(categories), ExpectedCategoryList).AndThen(cs => Collect(cs, CategoryFromYaml))
  }

  /** The first doctrine that fails decides the failure of the whole list. */
  lemma ManyDoctrinesFirstFailure(doctrines: seq<Yaml>, k: nat)
    requires k < |doctrines| && !DoctrineFromYaml(doctrines[k]).Ok?
    requires forall j :: 0 <= j < k ==> DoctrineFromYaml(doctrines[j]).Ok?
    ensures ManyDoctrinesFromYaml(Array(doctrines)) == DoctrineFromYaml(doctrines[k]).PropagateFailure()
  {
    CollectFirstFailure(doctrines, DoctrineFromYaml, k);
  }

  /** The first category that fails decides the failure of the whole list. */
  lemma ManyCategoriesFirstFailure(categories: seq<Yaml>, k: nat)
    requires k < |categories| && !CategoryFromYaml(categories[k]).Ok?
    requires forall j :: 0 <= j < k ==> CategoryFromYaml(categories[j]).Ok?
    ensures ManyCategoriesFromYaml(Array(categories)) == CategoryFromYaml(categories[k]).PropagateFailure()
  {
    CollectFirstFailure(categories, CategoryFromYaml, k);
  }

  /** An entry of a ship list that is not a string makes the load panic. */
  lemma LoadShipsNonString(ships: seq<Yaml>, k: nat)
    requires k < |ships| && !ships[k].Str?
    ensures LoadShips(Array(ships)) == Panic(ShipNotString)
  {
  }

  /** Keys other than `name` and `categories` do not affect a doctrine. */
  lemma LoadDoctrineIgnoresOtherKeys(doctrine: map<Yaml, Yaml>, other: map<Yaml, Yaml>)
    requires forall k :: k in {NameKey, CategoriesKey} ==>
               (k in doctrine <==> k in other) && (k in doctrine ==> doctrine[k] == other[k])
    ensures LoadDoctrine(doctrine) == LoadDoctrine(other)
  {
  }
}
