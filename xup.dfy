/** What the command line does with the loaded doctrines: the flat ship list
    of a doctrine, its x-up string, and the name index. */
module Xup {
  import opened DoctrineLoader

  /** The ships of the categories, category by category (`flat_map`). */
  function Flatten(categories: seq<Category>): (r: seq<string>)
    ensures |r| == ShipCount(categories)
    decreases |categories|
  {
    if categories == [] then [] else categories[0].ships + Flatten(categories[1..])
  }

  /** `ships`: every ship of the doctrine, in document order. */
  function Ships(doctrine: Doctrine): (r: seq<string>)
    ensures |r| == ShipCount(doctrine.categories)
  {
    Flatten(doctrine.categories)
  }

  /** The number of ships over all categories. */
  function ShipCount(categories: seq<Category>): (n: nat)
    decreases |categories|
  {
    if categories == [] then 0 else |categories[0].ships| + ShipCount(categories[1..])
  }

  /** Flattening distributes over the concatenation of category lists. */
  lemma {:induction false} FlattenAppend(a: seq<Category>, b: seq<Category>)
    ensures Flatten(a + b) == Flatten(a) + Flatten(b)
    decreases |a|
  {
    if a != [] {
      assert (a + b)[0] == a[0] && (a + b)[1..] == a[1..] + b;
      FlattenAppend(a[1..], b);
    } else {
      assert a + b == b;
    }
  }

  /** A ship is in the list exactly when some category holds it. */
  lemma {:induction false} ShipsMembership(categories: seq<Category>, ship: string)
    ensures ship in Flatten(categories) <==> exists i :: 0 <= i < |categories| && ship in categories[i].ships
    decreases |categories|
  {
    if categories != [] {
      ShipsMembership(categories[1..], ship);
      if ship in Flatten(categories[1..]) {
        var i :| 0 <= i < |categories[1..]| && ship in categories[1..][i].ships;
        assert ship in categories[i + 1].ships;
      }
      if exists i :: 0 <= i < |categories| && ship in categories[i].ships {
        var i :| 0 <= i < |categories| && ship in categories[i].ships;
        if i > 0 {
          assert ship in categories[1..][i - 1].ships;
        }
      }
    }
  }

  /** `join`: the strings, with `separator` between each two of them. */
  function Join(parts: seq<string>, separator: string): (r: string)
    ensures parts != [] ==> |r| == TotalLength(parts) + (|parts| - 1) * |separator|
    ensures parts == [] ==> r == ""
    decreases |parts|
  {
    if parts == [] then ""
    else if |parts| == 1 then parts[0]
    else parts[0] + separator + Join(parts[1..], separator)
  }

  /** The number of characters over all the strings. */
  function TotalLength(parts: seq<string>): (n: nat)
    decreases |parts|
  {
    if parts == [] then 0 else |parts[0]| + TotalLength(parts[1..])
  }

  const XupSeparator := " / "

  /** `xup`: "x " and then the ship names separated by " / ". */
  function XupString(doctrine: Doctrine): (r: string)
    ensures |r| >= 2 && r[..2] == "x "
    ensures Ships(doctrine) == [] ==> r == "x "
  {
    "x " + Join(Ships(doctrine), XupSeparator)
  }

  /** The position of the first `c` in `s`. */
  function IndexOf(s: string, c: char): (r: nat)
    requires c in s
    ensures r < |s| && s[r] == c && forall j :: 0 <= j < r ==> s[j] != c
    decreases |s|
  {
    if s[0] == c then 0 else 1 + IndexOf(s[1..], c)
  }

  /** Cuts an x-up ship list back into names, at each " / ". */
  function SplitShips(s: string): (r: seq<string>)
    decreases |s|
  {
    if s == [] then []
    else if '/' !in s then [s]
    else
      var i := IndexOf(s, '/');
      if 1 <= i && i + 2 <= |s| then [s[..i - 1]] + SplitShips(s[i + 2..]) else [s]
  }

  /** A ship name that can be read back out of an x-up string. */
  predicate Readable(ship: string) {
    ship != [] && '/' !in ship
  }

  lemma FirstSlashIsSeparator(ship: string, rest: string)
    requires '/' !in ship
    ensures '/' in ship + XupSeparator + rest
    ensures IndexOf(ship + XupSeparator + rest, '/') == |ship| + 1
  {
    var s := ship + XupSeparator + rest;
    assert s[|ship| + 1] == '/';
  }

  /** Joining readable names and splitting them again gives back the names. */
  lemma {:induction false} SplitJoin(ships: seq<string>)
    requires forall i :: 0 <= i < |ships| ==> Readable(ships[i])
    ensures SplitShips(Join(ships, XupSeparator)) == ships
    decreases |ships|
  {
    if |ships| > 1 {
      var rest := Join(ships[1..], XupSeparator);
      SplitJoin(ships[1..]);
      FirstSlashIsSeparator(ships[0], rest);
      var s := ships[0] + XupSeparator + rest;
      assert s[..|ships[0]|] == ships[0];
      assert s[|ships[0]| + 3..] == rest;
    }
  }

  /** The x-up string lists exactly the doctrine's ships, in order. */
  lemma XupListsShips(doctrine: Doctrine)
    requires forall ship :: ship in Ships(doctrine) ==> Readable(ship)
    ensures SplitShips(XupString(doctrine)[2..]) == Ships(doctrine)
  {
    var ships := Ships(doctrine);
    forall i | 0 <= i < |ships| ensures Readable(ships[i]) {
      assert ships[i] in ships;
    }
    assert XupString(doctrine)[2..] == Join(ships, XupSeparator);
    SplitJoin(ships);
  }

  /** `HashMap` built by inserting each doctrine under its name, in list order. */
  function InsertAll(index: map<string, Doctrine>, doctrines: seq<Doctrine>): (r: map<string, Doctrine>)
    ensures r.Keys == index.Keys + Names(doctrines)
    decreases |doctrines|
  {
    if doctrines == [] then index
    else
      NamesCons(doctrines);
      InsertAll(index[doctrines[0].name := doctrines[0]], doctrines[1..])
  }

  /** The name index of `load_doctrines`: an entry for every doctrine name and for nothing else. */
  function ByName(doctrines: seq<Doctrine>): (r: map<string, Doctrine>)
    ensures r.Keys == Names(doctrines)
  {
    InsertAll(map[], doctrines)
  }

  function Names(doctrines: seq<Doctrine>): (names: set<string>) {
    set i | 0 <= i < |doctrines| :: doctrines[i].name
  }

  lemma NamesCons(doctrines: seq<Doctrine>)
    requires doctrines != []
    ensures Names(doctrines) == {doctrines[0].name} + Names(doctrines[1..])
  {
    forall n | n in Names(doctrines) ensures n in {doctrines[0].name} + Names(doctrines[1..]) {
      var i :| 0 <= i < |doctrines| && doctrines[i].name == n;
      if i > 0 { assert doctrines[1..][i - 1].name == n; }
    }
    forall n | n in Names(doctrines[1..]) ensures n in Names(doctrines) {
      var i :| 0 <= i < |doctrines[1..]| && doctrines[1..][i].name == n;
      assert doctrines[i + 1].name == n;
    }
  }

  lemma {:induction false} InsertAllKeeps(index: map<string, Doctrine>, doctrines: seq<Doctrine>, name: string)
    requires name in index
    requires forall j :: 0 <= j < |doctrines| ==> doctrines[j].name != name
    ensures name in InsertAll(index, doctrines) && InsertAll(index, doctrines)[name] == index[name]
    decreases |doctrines|
  {
    if doctrines != [] {
      InsertAllKeeps(index[doctrines[0].name := doctrines[0]], doctrines[1..], name);
    }
  }

  lemma {:induction false} InsertAllLast(index: map<string, Doctrine>, doctrines: seq<Doctrine>, i: nat)
    requires i < |doctrines|
    requires forall j :: i < j < |doctrines| ==> doctrines[j].name != doctrines[i].name
    ensures doctrines[i].name in InsertAll(index, doctrines)
    ensures InsertAll(index, doctrines)[doctrines[i].name] == doctrines[i]
    decreases |doctrines|
  {
    if i == 0 {
      InsertAllKeeps(index[doctrines[0].name := doctrines[0]], doctrines[1..], doctrines[0].name);
    } else {
      InsertAllLast(index[doctrines[0].name := doctrines[0]], doctrines[1..], i - 1);
    }
  }

  /** Of several doctrines with one name, the index keeps the last. */
  lemma ByNameLastWins(doctrines: seq<Doctrine>, i: nat)
    requires i < |doctrines|
    requires forall j :: i < j < |doctrines| ==> doctrines[j].name != doctrines[i].name
    ensures doctrines[i].name in ByName(doctrines) && ByName(doctrines)[doctrines[i].name] == doctrines[i]
  {
    InsertAllLast(map[], doctrines, i);
  }
}
