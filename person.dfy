/** Persona: a participant of a shared account, with a name that may not be
    blank, the percentage of every expense they bear, and the balance the
    account last computed for them. */
module People {
  import opened Wrappers
  import opened Text
  import opened Ids

  /** The percentages `setPorcentajeGasto` accepts. */
  predicate ValidShare(p: real) {
    0.0 <= p <= 100.0
  }

  class Person {
    const id: Id
    var name: string
    var share: real
    var balance: real

    /** What every constructor and setter keeps. */
    predicate Valid()
      reads this
    {
      !IsBlank(name) && ValidShare(share)
    }

    constructor (id: Id, name: string, share: real)
      requires !IsBlank(name) && ValidShare(share)
      ensures this.id == id && this.name == name && this.share == share && balance == 0.0
      ensures Valid()
    {
      this.id := id;
      this.name := name;
      this.share := share;
      balance := 0.0;
    }

    /** `setNombre`: a blank name is refused and the old one kept. */
    method SetName(name: string) returns (s: Status)
      modifies this
      ensures IsBlank(name) ==> s == Fail(BlankName) && this.name == old(this.name)
      ensures !IsBlank(name) ==> s == Done && this.name == name
      ensures share == old(share) && balance == old(balance)
    {
      if IsBlank(name) {
        return Fail(BlankName);
      }
      this.name := name;
      s := Done;
    }

    /** `setPorcentajeGasto`: exactly the range 0 to 100 is accepted; on
        failure the old percentage is kept. */
    method SetShare(p: real) returns (s: Status)
      modifies this
      ensures !ValidShare(p) ==> s == Fail(ShareOutOfRange) && share == old(share)
      ensures ValidShare(p) ==> s == Done && share == p
      ensures name == old(name) && balance == old(balance)
    {
      if p < 0.0 || p > 100.0 {
        return Fail(ShareOutOfRange);
      }
      share := p;
      s := Done;
    }

    /** `setSaldo`: no check. */
    method SetBalance(b: real)
      modifies this
      ensures balance == b && name == old(name) && share == old(share)
    {
      balance := b;
    }
  }

  /** `Persona.equals`: same identifier, whatever the name, share and
      balance. */
  predicate SamePerson(a: Person, b: Person) {
    a.id == b.id
  }

  /** `new Persona(nombre)`: the identifier is drawn first, then a blank
      name is refused; the percentage starts at 0 and so does the balance. */
  method NewPerson(ids: IdSupply, name: string) returns (r: Result<Person>)
    modifies ids
    ensures ids.next == old(ids.next) + 1
    ensures r.Err? <==> IsBlank(name)
    ensures r.Err? ==> r.error == BlankName
    ensures r.Ok? ==> fresh(r.value) && r.value.id == old(ids.next) && r.value.name == name
    ensures r.Ok? ==> r.value.share == 0.0 && r.value.balance == 0.0 && r.value.Valid()
  {
    var id := ids.Fresh();
    if IsBlank(name) {
      return Err(BlankName);
    }
    var p := new Person(id, name, 0.0);
    r := Ok(p);
  }

  /** `new Persona(nombre, porcentaje)`: the name is checked first, then the
      percentage. */
  method NewPersonWithShare(ids: IdSupply, name: string, share: real) returns (r: Result<Person>)
    modifies ids
    ensures ids.next == old(ids.next) + 1
    ensures r.Err? <==> IsBlank(name) || !ValidShare(share)
    ensures r.Err? ==> r.error == (if IsBlank(name) then BlankName else ShareOutOfRange)
    ensures r.Ok? ==> fresh(r.value) && r.value.id == old(ids.next) && r.value.name == name
    ensures r.Ok? ==> r.value.share == share && r.value.balance == 0.0 && r.value.Valid()
  {
    var id := ids.Fresh();
    if IsBlank(name) {
      return Err(BlankName);
    }
    if !ValidShare(share) {
      return Err(ShareOutOfRange);
    }
    var p := new Person(id, name, share);
    r := Ok(p);
  }
}
