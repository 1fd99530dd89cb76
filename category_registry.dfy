/** CatalogoCategorias: the categories known to the tracker. Names are
    unique ignoring case; lookups by name ignore case, removal compares names
    exactly, as `Categoria.equals` does. */
module CategoryRegistries {
  import opened Wrappers
  import opened Text
  import opened Ids
  import opened Categories
  import Seqs

  /** No two categories whose names are equal ignoring case. */
  predicate UniqueNames(cs: seq<Category>) {
    forall i, j :: 0 <= i < j < |cs| ==> !EqualsIgnoreCase(cs[i].name, cs[j].name)
  }

  /** The five categories every new registry starts with, given the
      identifier of the first. */
  function Defaults(first: Id): (cs: seq<Category>)
    ensures |cs| == 5 && UniqueNames(cs)
    ensures forall i :: 0 <= i < 5 ==> cs[i].id == first + i && !IsBlank(cs[i].name)
  {
    var cs := [
      Category(first, "Alimentación", "Compras de comida y bebida"),
      Category(first + 1, "Transporte", "Gasolina, transporte público"),
      Category(first + 2, "Entretenimiento", "Ocio, cine, eventos"),
      Category(first + 3, "Salud", "Farmacia, médico"),
      Category(first + 4, "Educación", "Libros, cursos")];
    forall i, j | 0 <= i < j < 5 ensures !EqualsIgnoreCase(cs[i].name, cs[j].name) {
      EqualsIgnoreCaseFacts(cs[i].name, cs[j].name, cs[j].name);
    }
    assert forall i :: 0 <= i < 5 ==> cs[i].name[0] > ' ';
    cs
  }

  /** `buscarPorNombre`: the first category whose name equals `name`
      ignoring case. */
  function FindByName(cs: seq<Category>, name: string): (r: Option<Category>)
    ensures r.None? <==> forall i :: 0 <= i < |cs| ==> !EqualsIgnoreCase(cs[i].name, name)
    ensures r.Some? ==> exists k :: 0 <= k < |cs| && cs[k] == r.value && EqualsIgnoreCase(r.value.name, name) &&
                                    forall j :: 0 <= j < k ==> !EqualsIgnoreCase(cs[j].name, name)
  {
    if |cs| == 0 then None
    else if EqualsIgnoreCase(cs[0].name, name) then Some(cs[0])
    else
      var r := FindByName(cs[1..], name);
      assert forall j :: 1 <= j < |cs| ==> cs[j] == cs[1..][j - 1];
      if r.Some? then
        ghost var k :| 0 <= k < |cs| - 1 && cs[1..][k] == r.value && EqualsIgnoreCase(r.value.name, name) &&
                       forall j :: 0 <= j < k ==> !EqualsIgnoreCase(cs[1..][j].name, name);
        assert cs[k + 1] == r.value;
        r
      else r
  }

  /** With unique names, the category found by a name is the only one with
      that name ignoring case. */
  lemma FindByNameUnique(cs: seq<Category>, name: string, i: nat)
    requires UniqueNames(cs) && i < |cs| && EqualsIgnoreCase(cs[i].name, name)
    ensures FindByName(cs, name) == Some(cs[i])
  {
    var r := FindByName(cs, name);
    var k :| 0 <= k < |cs| && cs[k] == r.value && EqualsIgnoreCase(r.value.name, name) &&
             forall j :: 0 <= j < k ==> !EqualsIgnoreCase(cs[j].name, name);
    if k != i {
      EqualsIgnoreCaseFacts(cs[k].name, name, cs[i].name);
      EqualsIgnoreCaseFacts(cs[i].name, name, cs[k].name);
    }
  }

  /** `buscarPorId`: the first category with exactly this identifier. */
  function FindById(cs: seq<Category>, id: Id): (r: Option<Category>)
    ensures r.None? <==> forall i :: 0 <= i < |cs| ==> cs[i].id != id
    ensures r.Some? ==> exists k :: 0 <= k < |cs| && cs[k] == r.value && r.value.id == id &&
                                    forall j :: 0 <= j < k ==> cs[j].id != id
  {
    Seqs.FindFirst(cs, (c: Category) => c.id == id)
  }

  /** `List.remove(categoria)`: the first category with exactly the same
      name goes, the rest stay in order. */
  function WithoutName(cs: seq<Category>, name: string): (r: seq<Category>)
    ensures (forall i :: 0 <= i < |cs| ==> cs[i].name != name) ==> r == cs
    ensures (exists i :: 0 <= i < |cs| && cs[i].name == name) ==>
      exists k :: 0 <= k < |cs| && cs[k].name == name && (forall j :: 0 <= j < k ==> cs[j].name != name) &&
                  r == cs[..k] + cs[k + 1..]
  {
    Seqs.RemoveFirst(cs, (c: Category) => c.name == name)
  }

  /** Dropping the category at one position keeps the names unique. */
  lemma DropKeepsUnique(cs: seq<Category>, k: nat)
    requires UniqueNames(cs) && k < |cs|
    ensures UniqueNames(cs[..k] + cs[k + 1..])
  {
    var r := cs[..k] + cs[k + 1..];
    forall i, j | 0 <= i < j < |r| ensures !EqualsIgnoreCase(r[i].name, r[j].name) {
      var i', j' := if i < k then i else i + 1, if j < k then j else j + 1;
      assert r[i] == cs[i'] && r[j] == cs[j'];
    }
  }

  /** Dropping a category keeps the names unique. */
  lemma WithoutNameKeepsUnique(cs: seq<Category>, name: string)
    requires UniqueNames(cs)
    ensures UniqueNames(WithoutName(cs, name))
    ensures |WithoutName(cs, name)| == |cs| - (if exists i :: 0 <= i < |cs| && cs[i].name == name then 1 else 0)
  {
    if exists i :: 0 <= i < |cs| && cs[i].name == name {
      var k :| 0 <= k < |cs| && cs[k].name == name && (forall j :: 0 <= j < k ==> cs[j].name != name) &&
               WithoutName(cs, name) == cs[..k] + cs[k + 1..];
      DropKeepsUnique(cs, k);
    }
  }

  /** `buscarPorNombre(nombre).orElseGet(() -> new Categoria(nombre, d))`:
      the category found ignoring case, or else a new one with the fresh
      identifier, which a blank name makes fail. */
  function FindOrCreate(cs: seq<Category>, name: string, description: string, id: Id): (r: Result<Category>)
    ensures FindByName(cs, name).Some? ==> r == Ok(FindByName(cs, name).value)
    ensures FindByName(cs, name).None? && IsBlank(name) ==> r == Err(BlankName)
    ensures FindByName(cs, name).None? && !IsBlank(name) ==> r == Ok(Category(id, name, description))
  {
    match FindByName(cs, name)
    case Some(c) => Ok(c)
    case None => NewCategory(id, name, description)
  }

  class CategoryRegistry {
    var categories: seq<Category>

    /** The invariant every operation keeps. */
    predicate Valid()
      reads this
    {
      UniqueNames(categories)
    }

    /** A new registry holds exactly the five defaults, each with a fresh
        identifier. */
    constructor (ids: IdSupply)
      modifies ids
      ensures categories == Defaults(old(ids.next)) && Valid()
      ensures ids.next == old(ids.next) + 5
    {
      var first := ids.next;
      ids.next := ids.next + 5;
      categories := Defaults(first);
    }

    /** `agregarCategoria`: a name equal to a stored one ignoring case is
        refused and nothing changes; anything else goes at the end. */
    method Add(c: Category) returns (s: Status)
      requires Valid()
      modifies this
      ensures Valid()
      ensures FindByName(old(categories), c.name).Some? ==> s == Fail(DuplicateCategoryName) && categories == old(categories)
      ensures FindByName(old(categories), c.name).None? ==> s == Done && categories == old(categories) + [c]
    {
      if FindByName(categories, c.name).Some? {
        return Fail(DuplicateCategoryName);
      }
      forall i | 0 <= i < |categories| ensures !EqualsIgnoreCase(categories[i].name, c.name) {
      }
      categories := categories + [c];
      s := Done;
    }

    /** The find-or-create step of `registrarGasto`, `buscarOCrearCategoria`
        and `registrarGastoEnCuenta`: an identifier is drawn only when no
        category matches, and a new category is registered at once, which
        its name, matching none, never makes fail. */
    method FindOrAdd(name: string, description: string, ids: IdSupply) returns (r: Result<Category>)
      requires Valid()
      modifies this, ids
      ensures Valid()
      ensures r == FindOrCreate(old(categories), name, description, old(ids.next))
      ensures ids.next == old(ids.next) + (if FindByName(old(categories), name).Some? then 0 else 1)
      ensures categories == old(categories) + (if FindByName(old(categories), name).None? && r.Ok? then [r.value] else [])
      ensures r.Ok? ==> FindByName(categories, name) == Some(r.value)
    {
      var found := FindByName(categories, name);
      if found.Some? {
        return Ok(found.value);
      }
      var id := ids.Fresh();
      r := NewCategory(id, name, description);
      if r.Ok? {
        var _ := Add(r.value);
        EqualsIgnoreCaseFacts(name, name, name);
        FindByNameUnique(categories, name, |categories| - 1);
      }
    }

    /** `buscarPorNombre`. */
    function Find(name: string): (r: Option<Category>)
      reads this
      ensures r.Some? ==> r.value in categories && EqualsIgnoreCase(r.value.name, name)
      ensures r.None? <==> forall c :: c in categories ==> !EqualsIgnoreCase(c.name, name)
    {
      FindByName(categories, name)
    }

    /** `buscarPorId`. */
    function FindId(id: Id): (r: Option<Category>)
      reads this
      ensures r.None? <==> forall c :: c in categories ==> c.id != id
      ensures r.Some? ==> exists k :: 0 <= k < |categories| && categories[k] == r.value && r.value.id == id &&
                                      forall j :: 0 <= j < k ==> categories[j].id != id
    {
      FindById(categories, id)
    }

    /** `eliminarCategoria`: removes the category with exactly the same
        name, if there is one. */
    method Remove(c: Category)
      requires Valid()
      modifies this
      ensures Valid()
      ensures categories == WithoutName(old(categories), c.name)
      ensures |categories| == |old(categories)| - (if c.name in NamesOf(old(categories)) then 1 else 0)
    {
      WithoutNameKeepsUnique(categories, c.name);
      categories := WithoutName(categories, c.name);
    }

    /** `obtenerTodas`: a copy. */
    function All(): (r: seq<Category>)
      reads this
      ensures r == categories
    {
      categories
    }

    /** `cantidadCategorias`. */
    function Count(): (n: nat)
      reads this
      ensures n == |categories|
    {
      |categories|
    }
  }

  /** The names of a list of categories. */
  function NamesOf(cs: seq<Category>): set<string> {
    set i | 0 <= i < |cs| :: cs[i].name
  }

  /** Two names that differ, ignoring case, at one position differ
      ignoring case. */
  lemma DifferAt(a: string, b: string, k: nat)
    requires k < |a| && k < |b| && Lower(a[k]) != Lower(b[k])
    ensures !EqualsIgnoreCase(a, b)
  {
    assert ToLower(a)[k] != ToLower(b)[k];
  }

  /** A new registry's defaults can be found by name in any case. */
  lemma DefaultsFoundIgnoringCase(first: Id)
    ensures FindByName(Defaults(first), "salud") == Some(Defaults(first)[3])
  {
    var cs := Defaults(first);
    assert cs[3].name == "Salud";
    assert EqualsIgnoreCase("Salud", "salud") by {
      assert Lower('S') == 's';
      assert ToLower("Salud") == ToLower("salud");
    }
    FindByNameUnique(cs, "salud", 3);
  }

  /** A name outside the defaults is not found in a new registry. */
  lemma DefaultsLackShared(first: Id)
    ensures FindByName(Defaults(first), "Compartido").None?
  {
    var cs := Defaults(first);
    var names := ["Alimentación", "Transporte", "Entretenimiento", "Salud", "Educación"];
    assert forall i :: 0 <= i < 5 ==> cs[i].name == names[i];
    forall i | 0 <= i < 5 ensures !EqualsIgnoreCase(names[i], "Compartido") {
      DifferAt(names[i], "Compartido", 0);
    }
  }
}
