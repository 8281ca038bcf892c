# xup doctrine loader, modelled in Dafny

`xup` is a command-line tool for EVE Online. It reads a YAML file of *doctrines* and prints an "x-up" string for a chosen doctrine. A doctrine is a name plus a list of categories, and each category is a list of ship names. The tool can also list the doctrine names. This project models the core of the tool: the loader that checks an already-parsed YAML tree and turns it into typed `Doctrine` and `Category` values. Each shape error produces a fixed message, and the first error stops the whole load. The model also covers three small pure pieces of the command line: the flat ship list of a doctrine, its x-up string, and the name-to-doctrine index.

Files:

- `outcomes.dfy`, module `Outcomes`. It has `Option`, and `Outcome`, the three ways a computation here can end: `Ok`, `Err` with a static message, or `Panic`. It also has the combinators the Rust code uses (`ok_or`, `and_then`, `map`) and `Collect`, which models `map(f).collect::<Result<Vec<_>, _>>()`.
- `yaml_tree.dfy`, module `YamlTree`. It has the node type of the YAML library, after aliases are resolved, and the accessors the loader calls.
- `doctrine_loader.dfy`, module `DoctrineLoader`. This is `src/doctrine.rs`.
- `doctrine_scenarios.dfy`, module `DoctrineScenarios`. These are the unit scenarios of `src/doctrine.rs`, stated on the trees the YAML library builds for them.
- `xup.dfy`, module `Xup`. This is `ships`, `xup` and the name index of `src/main.rs`.

Modelling decisions:

- A panic is modelled as a third outcome, `Panic(message)`. A non-string entry in a ship list makes `expect` panic with "Ship name was not a string". `Panic` propagates through every combinator, just as the unwinding does. `collect` is lazy and stops at the first element that fails, so a list fails exactly as its first failing element does, whether that element returns an `Err` or panics.
- A YAML hash is an insertion-ordered map with unique keys. The loader only looks keys up in it and removes them, so it is modelled as a `map<Yaml, Yaml>`. `remove` on a hash the loader owns is modelled literally: the value, and the map without that key.
- The library's `Integer` holds an `i64`. It is modelled as `int`, because no arithmetic is done on it.
- Only a YAML string is accepted as a doctrine name, so `name: 42` is rejected with "Doctrine name not a string." An empty string is accepted as a name; nothing in the loader requires a name to be non-empty. A ship entry that is not a string panics instead of returning a typed error.
- `src/main.rs:48` passes `&Yaml`, but `many_from_yaml` takes its node by value. The model uses the by-value signature of `src/doctrine.rs:43`.

## Model

| member | source | states |
|---|---|---|
| `Outcomes.Collect` | src/doctrine.rs:46 | collecting succeeds exactly when every element converts; then the result has the input's length and its i-th value is the i-th element's conversion; a failed collect is the failure of some failing element |
| `Outcomes.CollectFirstFailure` | src/doctrine.rs:46 | when element k is the first that fails, the whole collect fails with exactly its error or panic, and no partial list is returned |
| `Outcomes.CollectAllOk` | src/doctrine.rs:83 | when every element converts to a known value, the collect yields exactly those values in order |
| `DoctrineLoader.LoadDoctrine` | src/doctrine.rs:18-34 | a missing `name` gives "Doctrine name not found."; a non-string name gives "Doctrine name not a string."; only then does a missing `categories` give "Doctrine has no categories."; an error inside the categories is passed through; success holds exactly when both keys are good, and then the name is the string under `name` and the categories are those loaded from `categories` |
| `DoctrineLoader.LoadDoctrineIgnoresOtherKeys` | src/doctrine.rs:18-33 | two hashes that agree on `name` and `categories` load to the same outcome, so other keys have no effect |
| `DoctrineLoader.DoctrineFromYaml` | src/doctrine.rs:37-41 | a node that is not a hash gives "Expected doctrine."; a hash is loaded as a doctrine |
| `DoctrineLoader.ManyDoctrinesFromYaml` | src/doctrine.rs:43-47 | a node that is not a list gives "Expected list of doctrines."; a list loads exactly when every element does, and then the result has the same length and order, element by element |
| `DoctrineLoader.ManyDoctrinesFirstFailure` | src/doctrine.rs:46 | the first doctrine that fails decides the error of the whole load |
| `DoctrineLoader.LoadShips` | src/doctrine.rs:50-61 | never returns an error; a node that is not a list gives no ships; a list loads exactly when every entry is a string, and then the result is those strings in order; otherwise it panics with "Ship name was not a string" |
| `DoctrineLoader.LoadShipsNonString` | src/doctrine.rs:55 | a list with a non-string entry panics |
| `DoctrineLoader.LoadCategory` | src/doctrine.rs:63-71 | a missing `category` key gives "Could not find category."; with the key present the result is never an error: it is the loaded ship list, or the ship list's panic |
| `DoctrineLoader.ShipName` | src/doctrine.rs:54-57 | a ship entry converts exactly when it is a string, to that string; any other entry panics with "Ship name was not a string" |
| `DoctrineLoader.CategoryFromYaml` | src/doctrine.rs:74-78 | a node that is not a hash gives "Expected category."; a hash is loaded as a category |
| `DoctrineLoader.ManyCategoriesFromYaml` | src/doctrine.rs:80-84 | a node that is not a list gives "Expected list of categories."; a list loads exactly when every element does, and then the result has the same length and order |
| `DoctrineLoader.ManyCategoriesFirstFailure` | src/doctrine.rs:83 | the first category that fails decides the error of the whole categories list |
| `DoctrineScenarios.ParseCategories` | src/doctrine.rs:96-112 | one category `[Blackbird, Celestis, Maller]` loads to exactly that category |
| `DoctrineScenarios.ParseEmptyCategory` | src/doctrine.rs:114-131 | categories `[]` and `[Blackbird]` load to an empty category and then a one-ship category, in that order |
| `DoctrineScenarios.ParseDoctrines` | src/doctrine.rs:133-157 | the single "Armor Battleships" doctrine loads exactly as expected |
| `DoctrineScenarios.ParseDoctrinesWithAnchors` | src/doctrine.rs:159-191 | two doctrines that share one aliased ship list both load with the same three ships |
| `DoctrineScenarios.MissingNameStopsLoad` | src/doctrine.rs:18-21 | a nameless doctrine after a good one makes the whole load fail with "Doctrine name not found." |
| `Xup.FlattenAppend` | src/main.rs:52-54 | the flat ship list of two category lists, one after the other, is the first list's ships followed by the second's |
| `Xup.Flatten` | src/main.rs:53 | the flattened list is as long as all categories' ship lists together (counted independently by `ShipCount`); its order is stated by `FlattenAppend`, and its contents by `ShipsMembership` |
| `Xup.Ships` | src/main.rs:52-54 | a doctrine's ship list has as many entries as all its categories together |
| `Xup.ShipsMembership` | src/main.rs:52-54 | a ship is in the flat list exactly when some category holds it |
| `Xup.Join` | src/main.rs:57 | an empty list joins to ""; otherwise the result is as long as all parts plus one separator between each two; `SplitJoin` gives it back its parts |
| `Xup.XupString` | src/main.rs:56-58 | the x-up string starts with "x ", and a doctrine with no ships gives exactly "x " |
| `Xup.SplitJoin` | src/main.rs:57 | joining non-empty ship names that contain no '/' with " / " can be cut back into exactly those names |
| `Xup.XupListsShips` | src/main.rs:56-58 | after its "x " prefix, the x-up string lists exactly the doctrine's ships in order (for non-empty names without '/') |
| `Xup.InsertAll` | src/main.rs:49 | inserting the doctrines one by one, in list order, adds exactly their names to the keys already present; which entry survives is stated by `InsertAllKeeps` and `InsertAllLast` |
| `Xup.InsertAllKeeps` | src/main.rs:49 | an entry whose name no inserted doctrine carries is left as it was |
| `Xup.InsertAllLast` | src/main.rs:49 | after the inserts, a name maps to the last doctrine in list order that carries it |
| `Xup.ByName` | src/main.rs:49 | the name index has a key for every doctrine name and for no other name |
| `Xup.ByNameLastWins` | src/main.rs:49 | of several doctrines with the same name, the index holds the last one in list order |

## Left out

- YAML text parsing and anchor and alias resolution (`YamlLoader`, and the test helper at src/doctrine.rs:92-94) belong to the YAML library and are not modelled. The model starts from a parsed tree, in which an alias is simply a second copy of the anchored node.
- Finding the config file under the home directory, reading it, and choosing the first of several YAML documents (src/main.rs:16-43) are file and environment I/O, and are not modelled.
- Argument parsing with `clap` and the printing in `main` (src/main.rs:60-88) are command-line I/O, and are not modelled. The `expect("Something")` at src/main.rs:48, which aborts on a load error, belongs to this glue.
- The order in which `ls` prints the names (src/main.rs:74-76) is the unspecified iteration order of a `HashMap`. The model says only which keys the index holds.
- `Xup.SplitShips` is not part of the source. It is the inverse that `Xup.XupListsShips` uses to state what the x-up string contains.
