/** The managed entries of a service's Cargo manifest (service.rs, `render_cargo`). */
module CargoManifest {
  import opened Prelude

  /** A dependency's value: the inline path table the tool writes, or anything else. */
  datatype Item = PathTable(path: string) | Opaque(text: string)

  datatype Entry = Entry(name: string, item: Item)

  /** The `dependencies` value of a manifest: missing, an ordered table, or something else. */
  datatype Dependencies = Missing | Table(entries: seq<Entry>) | NotATable

  datatype Cargo = Cargo(dependencies: Dependencies, managed: seq<string>)

  /** One declared RPC dependency; a manifest lists them in name order. */
  datatype Declared = Declared(crateName: string, path: string)

  datatype RenderError = DependenciesNotATable

  // --------------------------------------------------------------- ordered tables

  predicate Has(entries: seq<Entry>, name: string) {
    exists i | 0 <= i < |entries| :: entries[i].name == name
  }

  /** No key twice, as TOML demands of a table. */
  ghost predicate DistinctKeys(entries: seq<Entry>) {
    forall i, j | 0 <= i < j < |entries| :: entries[i].name != entries[j].name
  }

  /** The entries whose key is not among the names, in their order. */
  function Without(entries: seq<Entry>, names: seq<string>): seq<Entry> {
    if entries == [] then []
    else (if entries[0].name in names then [] else [entries[0]]) + Without(entries[1..], names)
  }

  /** Insertion replaces the value of a key that is there, in its place, and appends one that is not. */
  function Insert(entries: seq<Entry>, entry: Entry): seq<Entry> {
    if entries == [] then [entry]
    else if entries[0].name == entry.name then [entry] + entries[1..]
    else [entries[0]] + Insert(entries[1..], entry)
  }

  function InsertAll(entries: seq<Entry>, declared: seq<Declared>): seq<Entry> {
    if declared == [] then entries
    else
      var last := declared[|declared| - 1];
      Insert(InsertAll(entries, declared[..|declared| - 1]), Entry(last.crateName, PathTable(last.path)))
  }

  function Crates(declared: seq<Declared>): seq<string> {
    seq(|declared|, i requires 0 <= i < |declared| => declared[i].crateName)
  }

  function EntriesOf(cargo: Cargo): seq<Entry> {
    if cargo.dependencies.Table? then cargo.dependencies.entries else []
  }

  function Rendered(cargo: Cargo, declared: seq<Declared>): Result<Cargo, RenderError> {
    if cargo.dependencies.NotATable? then Err(DependenciesNotATable)
    else
      var kept := Without(EntriesOf(cargo), cargo.managed + Crates(declared));
      Ok(Cargo(Table(InsertAll(kept, declared)), Crates(declared)))
  }

  // --------------------------------------------------------------- the loops

  method RenderCargo(cargo: Cargo, declared: seq<Declared>) returns (r: Result<Cargo, RenderError>)
    ensures r == Rendered(cargo, declared)
  {
    hide Without, InsertAll;
    if cargo.dependencies.NotATable? {
      return Err(DependenciesNotATable);
    }
    var entries := EntriesOf(cargo);
    ghost var start := entries;
    WithoutNone(start);
    for i := 0 to |cargo.managed|
      invariant entries == Without(start, cargo.managed[..i])
    {
      assert cargo.managed[..i + 1] == cargo.managed[..i] + [cargo.managed[i]];
      WithoutMore(start, cargo.managed[..i], [cargo.managed[i]]);
      entries := Without(entries, [cargo.managed[i]]);
    }
    assert cargo.managed[..|cargo.managed|] == cargo.managed;
    assert cargo.managed + Crates(declared[..0]) == cargo.managed;
    for i := 0 to |declared|
      invariant entries == Without(start, cargo.managed + Crates(declared[..i]))
    {
      CratesStep(declared, i);
      assert cargo.managed + Crates(declared[..i + 1]) == cargo.managed + Crates(declared[..i])
             + [declared[i].crateName];
      WithoutMore(start, cargo.managed + Crates(declared[..i]), [declared[i].crateName]);
      entries := Without(entries, [declared[i].crateName]);
    }
    assert declared[..|declared|] == declared;
    ghost var kept := entries;
    InsertNone(kept);
    for i := 0 to |declared|
      invariant entries == InsertAll(kept, declared[..i])
    {
      InsertStep(kept, declared, i);
      entries := Insert(entries, Entry(declared[i].crateName, PathTable(declared[i].path)));
    }
    var managed: seq<string> := [];
    for i := 0 to |declared|
      invariant managed == Crates(declared[..i])
    {
      CratesStep(declared, i);
      managed := managed + [declared[i].crateName];
    }
    return Ok(Cargo(Table(entries), managed));
  }

  lemma CratesStep(declared: seq<Declared>, i: nat)
    requires i < |declared|
    ensures Crates(declared[..i + 1]) == Crates(declared[..i]) + [declared[i].crateName]
  {
  }

  lemma InsertNone(entries: seq<Entry>)
    ensures InsertAll(entries, []) == entries
  {
  }

  lemma InsertStep(entries: seq<Entry>, declared: seq<Declared>, i: nat)
    requires i < |declared|
    ensures InsertAll(entries, declared[..i + 1]) ==
              Insert(InsertAll(entries, declared[..i]), Entry(declared[i].crateName, PathTable(declared[i].path)))
  {
    assert declared[..i + 1][..i] == declared[..i];
  }

  lemma {:induction false} WithoutNone(entries: seq<Entry>)
    ensures Without(entries, []) == entries
  {
    if entries != [] {
      WithoutNone(entries[1..]);
    }
  }

  lemma {:induction false} WithoutMore(entries: seq<Entry>, a: seq<string>, b: seq<string>)
    ensures Without(Without(entries, a), b) == Without(entries, a + b)
  {
    if entries != [] {
      WithoutMore(entries[1..], a, b);
      var rest := Without(entries[1..], a);
      if entries[0].name !in a {
        assert ([entries[0]] + rest)[1..] == rest;
      } else {
        assert [] + rest == rest;
      }
    }
  }

  // --------------------------------------------------------------- what a rendering is

  /** What the tool puts in: the declared crates in order, a repeated one keeping its first place and its last path. */
  function Managed(declared: seq<Declared>): seq<Entry> {
    InsertAll([], declared)
  }

  lemma {:induction false} InsertAfter(a: seq<Entry>, b: seq<Entry>, entry: Entry)
    requires !Has(a, entry.name)
    ensures Insert(a + b, entry) == a + Insert(b, entry)
  {
    if a == [] {
      assert a + b == b && [] + Insert(b, entry) == Insert(b, entry);
    } else {
      assert a[0].name != entry.name;
      forall i | 0 <= i < |a[1..]| ensures a[1..][i].name != entry.name {
        assert a[1..][i] == a[i + 1];
      }
      InsertAfter(a[1..], b, entry);
      assert (a + b)[0] == a[0] && (a + b)[1..] == a[1..] + b;
    }
  }

  lemma {:induction false} InsertAllAfter(a: seq<Entry>, declared: seq<Declared>)
    requires forall d | d in declared :: !Has(a, d.crateName)
    ensures InsertAll(a, declared) == a + Managed(declared)
    decreases |declared|
  {
    if declared != [] {
      var n := |declared| - 1;
      assert declared[n] in declared;
      forall d | d in declared[..n] ensures d in declared {
      }
      InsertAllAfter(a, declared[..n]);
      InsertAfter(a, Managed(declared[..n]), Entry(declared[n].crateName, PathTable(declared[n].path)));
    }
  }

  lemma {:induction false} WithoutHas(entries: seq<Entry>, names: seq<string>, name: string)
    ensures Has(Without(entries, names), name) <==> Has(entries, name) && name !in names
  {
    if entries != [] {
      WithoutHas(entries[1..], names, name);
      var rest := Without(entries[1..], names);
      HasCons(entries[0], entries[1..], name);
      assert entries == [entries[0]] + entries[1..];
      if entries[0].name in names {
        assert [] + rest == rest;
      } else {
        HasCons(entries[0], rest, name);
      }
    }
  }

  lemma HasCons(head: Entry, tail: seq<Entry>, name: string)
    ensures Has([head] + tail, name) <==> head.name == name || Has(tail, name)
  {
    var all := [head] + tail;
    if Has(all, name) && head.name != name {
      var i :| 0 <= i < |all| && all[i].name == name;
      assert tail[i - 1].name == name;
    }
    if Has(tail, name) {
      var i :| 0 <= i < |tail| && tail[i].name == name;
      assert all[i + 1].name == name;
    }
    assert all[0] == head;
  }

  /** A rendering is the entries nobody manages, as they were and in their order, then the declared crates. */
  lemma RenderedIs(cargo: Cargo, declared: seq<Declared>)
    requires !cargo.dependencies.NotATable?
    ensures Rendered(cargo, declared) ==
              Ok(Cargo(Table(Without(EntriesOf(cargo), cargo.managed + Crates(declared)) + Managed(declared)),
                       Crates(declared)))
  {
    hide Without, InsertAll;
    var names := cargo.managed + Crates(declared);
    forall d | d in declared ensures !Has(Without(EntriesOf(cargo), names), d.crateName) {
      var i :| 0 <= i < |declared| && declared[i] == d;
      assert Crates(declared)[i] in Crates(declared);
      WithoutHas(EntriesOf(cargo), names, d.crateName);
    }
    InsertAllAfter(Without(EntriesOf(cargo), names), declared);
  }

  // --------------------------------------------------------------- the managed part

  function LookupIn(entries: seq<Entry>, name: string): Option<Item> {
    if entries == [] then None else if entries[0].name == name then Some(entries[0].item)
        else LookupIn(entries[1..], name)
  }

  /** The last declaration of a crate. */
  function LastPath(declared: seq<Declared>, name: string): Option<Item> {
    if declared == [] then None
    else
      var last := declared[|declared| - 1];
      if last.crateName == name then Some(PathTable(last.path)) else LastPath(declared[..|declared| - 1], name)
  }

  lemma {:induction false} InsertLookup(entries: seq<Entry>, entry: Entry, name: string)
    ensures LookupIn(Insert(entries, entry), name) == if name == entry.name then Some(entry.item)
            else LookupIn(entries, name)
  {
    if entries != [] {
      InsertLookup(entries[1..], entry, name);
    }
  }

  lemma {:induction false} InsertHas(entries: seq<Entry>, entry: Entry, name: string)
    ensures Has(Insert(entries, entry), name) <==> Has(entries, name) || name == entry.name
  {
    if entries == [] {
      assert [entry] == [entry] + [];
      HasCons(entry, [], name);
    } else {
      assert entries == [entries[0]] + entries[1..];
      HasCons(entries[0], entries[1..], name);
      if entries[0].name == entry.name {
        HasCons(entry, entries[1..], name);
      } else {
        InsertHas(entries[1..], entry, name);
        HasCons(entries[0], Insert(entries[1..], entry), name);
      }
    }
  }

  lemma {:induction false} InsertDistinct(entries: seq<Entry>, entry: Entry)
    requires DistinctKeys(entries)
    ensures DistinctKeys(Insert(entries, entry))
  {
    if entries != [] && entries[0].name != entry.name {
      var rest := Insert(entries[1..], entry);
      assert DistinctKeys(entries[1..]);
      InsertDistinct(entries[1..], entry);
      InsertHas(entries[1..], entry, entries[0].name);
      forall j | 0 <= j < |rest| ensures rest[j].name != entries[0].name {
      }
    }
  }

  /** The managed entries are exactly the declared crates, once each, with the path declared last. */
  lemma {:induction false} ManagedIsDeclared(declared: seq<Declared>, name: string)
    ensures DistinctKeys(Managed(declared))
    ensures Has(Managed(declared), name) <==> name in Crates(declared)
    ensures LookupIn(Managed(declared), name) == LastPath(declared, name)
    decreases |declared|
  {
    hide Has, Insert;
    if declared == [] {
      NothingHas(name);
    } else {
      var n := |declared| - 1;
      var last := Entry(declared[n].crateName, PathTable(declared[n].path));
      ManagedIsDeclared(declared[..n], name);
      InsertDistinct(Managed(declared[..n]), last);
      InsertHas(Managed(declared[..n]), last, name);
      InsertLookup(Managed(declared[..n]), last, name);
      CratesStep(declared, n);
      assert declared[..n + 1] == declared;
    }
  }

  lemma NothingHas(name: string)
    ensures !Has([], name)
  {
  }

  // --------------------------------------------------------------- one rendering after another

  lemma {:induction false} WithoutCat(a: seq<Entry>, b: seq<Entry>, names: seq<string>)
    ensures Without(a + b, names) == Without(a, names) + Without(b, names)
  {
    if a == [] {
      assert a + b == b && [] + Without(b, names) == Without(b, names);
    } else {
      assert (a + b)[1..] == a[1..] + b;
      WithoutCat(a[1..], b, names);
    }
  }

  lemma {:induction false} WithoutAll(entries: seq<Entry>, names: seq<string>)
    requires forall i | 0 <= i < |entries| :: entries[i].name in names
    ensures Without(entries, names) == []
  {
    if entries != [] {
      assert entries[0].name in names;
      forall i | 0 <= i < |entries[1..]| ensures entries[1..][i].name in names {
        assert entries[1..][i] == entries[i + 1];
      }
      WithoutAll(entries[1..], names);
    }
  }

  lemma {:induction false} WithoutSame(entries: seq<Entry>, a: seq<string>, b: seq<string>)
    requires forall n :: n in a <==> n in b
    ensures Without(entries, a) == Without(entries, b)
  {
    if entries != [] {
      WithoutSame(entries[1..], a, b);
    }
  }

  /** Taking out what the last rendering put in, and more, leaves the entries nobody managed. */
  lemma WithoutRendering(kept: seq<Entry>, declared: seq<Declared>, more: seq<string>)
    ensures Without(kept + Managed(declared), Crates(declared) + more) == Without(kept, Crates(declared) + more)
  {
    hide Without, InsertAll;
    var names := Crates(declared) + more;
    var managed := Managed(declared);
    forall i | 0 <= i < |managed| ensures managed[i].name in names {
      ManagedIsDeclared(declared, managed[i].name);
      assert Has(managed, managed[i].name);
    }
    WithoutCat(kept, managed, names);
    WithoutAll(managed, names);
    assert Without(kept, names) + [] == Without(kept, names);
  }

  /**
   * A second rendering forgets the first: what remains are the entries neither rendering managed, then the crates of
   * the second.
   */
  lemma RenderAfterRender(cargo: Cargo, first: seq<Declared>, second: seq<Declared>)
    requires !cargo.dependencies.NotATable?
    ensures Rendered(Rendered(cargo, first).value, second) ==
              Ok(Cargo(Table(Without(EntriesOf(cargo), cargo.managed + Crates(first) + Crates(second))
                             + Managed(second)), Crates(second)))
  {
    hide Without, Managed, Crates;
    var a, b := Crates(first), Crates(second);
    var kept := Without(EntriesOf(cargo), cargo.managed + a);
    RenderedIs(cargo, first);
    var once := Rendered(cargo, first).value;
    RenderedIs(once, second);
    WithoutRendering(kept, first, b);
    WithoutMore(EntriesOf(cargo), cargo.managed + a, a + b);
    WithoutSame(EntriesOf(cargo), cargo.managed + a + (a + b), cargo.managed + a + b);
  }

  /** Rendering again changes nothing. */
  lemma RenderIsIdempotent(cargo: Cargo, declared: seq<Declared>)
    requires !cargo.dependencies.NotATable?
    ensures Rendered(Rendered(cargo, declared).value, declared) == Rendered(cargo, declared)
  {
    hide Without, Managed, Crates;
    RenderAfterRender(cargo, declared, declared);
    RenderedIs(cargo, declared);
    var a := Crates(declared);
    WithoutSame(EntriesOf(cargo), cargo.managed + a + a, cargo.managed + a);
  }

  /** Entries nobody manages keep their values and their relative order. */
  lemma UnmanagedKept(cargo: Cargo, declared: seq<Declared>)
    requires !cargo.dependencies.NotATable?
    ensures var names := cargo.managed + Crates(declared);
            Without(EntriesOf(Rendered(cargo, declared).value), names) == Without(EntriesOf(cargo), names)
  {
    hide Without, Managed, Crates;
    var names, a := cargo.managed + Crates(declared), Crates(declared);
    RenderedIs(cargo, declared);
    var kept := Without(EntriesOf(cargo), names);
    WithoutSame(kept + Managed(declared), names, a + cargo.managed);
    WithoutRendering(kept, declared, cargo.managed);
    WithoutMore(EntriesOf(cargo), names, a + cargo.managed);
    WithoutSame(EntriesOf(cargo), names + (a + cargo.managed), names);
  }

  lemma {:induction false} WithoutDistinct(entries: seq<Entry>, names: seq<string>)
    requires DistinctKeys(entries)
    ensures DistinctKeys(Without(entries, names))
  {
    if entries != [] {
      assert DistinctKeys(entries[1..]);
      WithoutDistinct(entries[1..], names);
      WithoutHas(entries[1..], names, entries[0].name);
      var rest := Without(entries[1..], names);
      assert !Has(entries[1..], entries[0].name);
      forall j | 0 <= j < |rest| ensures rest[j].name != entries[0].name {
      }
    }
  }

  /** A rendering of a table without repeated keys has none either. */
  lemma RenderedKeysDistinct(cargo: Cargo, declared: seq<Declared>)
    requires !cargo.dependencies.NotATable? && DistinctKeys(EntriesOf(cargo))
    ensures DistinctKeys(EntriesOf(Rendered(cargo, declared).value))
  {
    hide Without, InsertAll, Rendered;
    var names := cargo.managed + Crates(declared);
    var kept, managed := Without(EntriesOf(cargo), names), Managed(declared);
    RenderedIs(cargo, declared);
    WithoutDistinct(EntriesOf(cargo), names);
    ManagedIsDeclared(declared, "");
    forall i, j | 0 <= i < |kept| && 0 <= j < |managed| ensures kept[i].name != managed[j].name {
      assert Has(kept, kept[i].name) && Has(managed, managed[j].name);
      WithoutHas(EntriesOf(cargo), names, kept[i].name);
      ManagedIsDeclared(declared, managed[j].name);
    }
  }
}
