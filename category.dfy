/** Categoria: a named bucket for expenses. Its name may not be blank, and
    two categories are equal exactly when their names are equal, case
    included, whatever their identifiers and descriptions. */
module Categories {
  import opened Wrappers
  import opened Text
  import opened Ids

  datatype Category = Category(id: Id, name: string, description: string)

  /** `new Categoria(nombre, descripcion)`: rejects a name that trims to
      nothing, that is, by `TrimEmptyIffBlank`, a blank one. */
  function NewCategory(id: Id, name: string, description: string): (r: Result<Category>)
    ensures r.Err? <==> IsBlank(name)
    ensures r.Err? ==> r.error == BlankName
    ensures r.Ok? ==> r.value.id == id && r.value.name == name && r.value.description == description
  {
    if IsBlank(name) then Err(BlankName) else Ok(Category(id, name, description))
  }

  /** `setNombre`: the same check as construction; on failure the category
      keeps its old name. */
  function SetName(c: Category, name: string): (r: Result<Category>)
    ensures r.Err? <==> IsBlank(name)
    ensures r.Err? ==> r.error == BlankName
    ensures r.Ok? ==> r.value.name == name && r.value.id == c.id && r.value.description == c.description
  {
    if IsBlank(name) then Err(BlankName) else Ok(c.(name := name))
  }

  /** `setDescripcion`: no check at all. */
  function SetDescription(c: Category, description: string): (r: Category)
    ensures r.description == description && r.id == c.id && r.name == c.name
  {
    c.(description := description)
  }

  /** `Categoria.equals`: exact, case-sensitive name equality. */
  predicate SameCategory(a: Category, b: Category) {
    a.name == b.name
  }

  /** `Categoria.hashCode`, which is `Objects.hash(nombre)`, that is
      31 + the name's String.hashCode, in 32-bit arithmetic. */
  function HashCode(c: Category): (h: int)
    ensures -0x8000_0000 <= h < 0x8000_0000
  {
    Wrap32(31 + StringHash(c.name))
  }

  /** Equality ignores the identifier and the description, is an
      equivalence, and equal categories hash alike. */
  lemma EqualityByName(a: Category, b: Category, c: Category, id: Id, description: string)
    ensures SameCategory(a, a.(id := id, description := description))
    ensures SameCategory(a, b) ==> SameCategory(b, a)
    ensures SameCategory(a, b) && SameCategory(b, c) ==> SameCategory(a, c)
    ensures SameCategory(a, b) ==> HashCode(a) == HashCode(b)
  {
  }

  /** Names that differ only in case make different categories, though the
      registry and the filters treat them as the same name. */
  lemma EqualityIsCaseSensitive()
    ensures !SameCategory(Category(0, "Salud", ""), Category(0, "salud", ""))
    ensures EqualsIgnoreCase("Salud", "salud")
  {
    assert "Salud"[0] != "salud"[0];
    assert ToLower("Salud") == "salud" by {
      assert Lower('S') == 's';
    }
    assert ToLower("salud") == "salud";
  }
}
