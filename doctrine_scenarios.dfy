/** The loader's own unit scenarios, on the trees the YAML library builds for them. */
module DoctrineScenarios {
  import opened Outcomes
  import opened YamlTree
  import opened DoctrineLoader

  /** `[Blackbird, Celestis, Maller]` as the library parses it. */
  function Ewar(): (y: Yaml) {
    Array([Str("Blackbird"), Str("Celestis"), Str("Maller")])
  }

  /** `- category: <ships>` */
  function CategoryNode(ships: Yaml): (y: Yaml) {
    Hash(map[Str("category") := ships])
  }

  /** `- name: <name>` with `categories: <categories>` */
  function DoctrineNode(name: string, categories: seq<Yaml>): (y: Yaml) {
    Hash(map[Str("name") := Str(name), Str("categories") := Array(categories)])
  }

  lemma ShipsOfNames(ships: seq<Yaml>, names: seq<string>)
    requires |ships| == |names| && forall i :: 0 <= i < |ships| ==> ships[i] == Str(names[i])
    ensures CategoryFromYaml(CategoryNode(Array(ships))) == Ok(Category(names))
  {
    assert CategoryKey in CategoryNode(Array(ships)).entries;
    assert LoadShips(Array(ships)).value == names;
  }

  lemma EwarCategory()
    ensures CategoryFromYaml(CategoryNode(Ewar())) == Ok(Category(["Blackbird", "Celestis", "Maller"]))
  {
    ShipsOfNames(Ewar().items, ["Blackbird", "Celestis", "Maller"]);
  }

  lemma ParseCategories()
    ensures ManyCategoriesFromYaml(Array([CategoryNode(Ewar())])) ==
            Ok([Category(["Blackbird", "Celestis", "Maller"])])
  {
    EwarCategory();
    CollectAllOk([CategoryNode(Ewar())], CategoryFromYaml, [Category(["Blackbird", "Celestis", "Maller"])]);
  }

  lemma ParseEmptyCategory()
    ensures ManyCategoriesFromYaml(Array([CategoryNode(Array([])), CategoryNode(Array([Str("Blackbird")]))])) ==
            Ok([Category([]), Category(["Blackbird"])])
  {
    ShipsOfNames([], []);
    ShipsOfNames([Str("Blackbird")], ["Blackbird"]);
    CollectAllOk([CategoryNode(Array([])), CategoryNode(Array([Str("Blackbird")]))], CategoryFromYaml,
                 [Category([]), Category(["Blackbird"])]);
  }

  /** A doctrine node whose categories are all single Ewar categories. */
  lemma EwarDoctrine(name: string)
    ensures DoctrineFromYaml(DoctrineNode(name, [CategoryNode(Ewar())])) ==
            Ok(Doctrine(name, [Category(["Blackbird", "Celestis", "Maller"])]))
  {
    ParseCategories();
    var h := DoctrineNode(name, [CategoryNode(Ewar())]).entries;
    assert NameKey in h && h[NameKey] == Str(name);
    assert CategoriesKey in h && h[CategoriesKey] == Array([CategoryNode(Ewar())]);
  }

  lemma ParseDoctrines()
    ensures ManyDoctrinesFromYaml(Array([DoctrineNode("Armor Battleships", [CategoryNode(Ewar())])])) ==
            Ok([Doctrine("Armor Battleships", [Category(["Blackbird", "Celestis", "Maller"])])])
  {
    EwarDoctrine("Armor Battleships");
    CollectAllOk([DoctrineNode("Armor Battleships", [CategoryNode(Ewar())])], DoctrineFromYaml,
                 [Doctrine("Armor Battleships", [Category(["Blackbird", "Celestis", "Maller"])])]);
  }

  /** The alias `*ewar` arrives as a second copy of the anchored list. */
  lemma ParseDoctrinesWithAnchors()
    ensures ManyDoctrinesFromYaml(Array([DoctrineNode("Armor Battleships", [CategoryNode(Ewar())]),
                                         DoctrineNode("Armor Confessors", [CategoryNode(Ewar())])])) ==
            Ok([Doctrine("Armor Battleships", [Category(["Blackbird", "Celestis", "Maller"])]),
                Doctrine("Armor Confessors", [Category(["Blackbird", "Celestis", "Maller"])])])
  {
    EwarDoctrine("Armor Battleships");
    EwarDoctrine("Armor Confessors");
    CollectAllOk([DoctrineNode("Armor Battleships", [CategoryNode(Ewar())]),
                  DoctrineNode("Armor Confessors", [CategoryNode(Ewar())])], DoctrineFromYaml,
                 [Doctrine("Armor Battleships", [Category(["Blackbird", "Celestis", "Maller"])]),
                  Doctrine("Armor Confessors", [Category(["Blackbird", "Celestis", "Maller"])])]);
  }

  /** A doctrine without a name stops the load with that error, even after a good doctrine. */
  lemma MissingNameStopsLoad()
    ensures ManyDoctrinesFromYaml(Array([DoctrineNode("Armor Battleships", [CategoryNode(Ewar())]),
                                         Hash(map[Str("categories") := Array([])])])) ==
            Err(NameNotFound)
  {
    EwarDoctrine("Armor Battleships");
    var nameless := Hash(map[Str("categories") := Array([])]);
    assert NameKey !in nameless.entries;
    ManyDoctrinesFirstFailure([DoctrineNode("Armor Battleships", [CategoryNode(Ewar())]), nameless], 1);
  }
}
