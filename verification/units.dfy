/** The D_Units registry: every unit converts to its SI base unit by the
    affine map  SI = value * ToSI_Mult + ToSI_Offset. */
module Units {
  import opened ExactMatch

  /** One row of D_Units (UnitID, UnitName, QuantityKind, SI_UnitName,
      ToSI_Mult, ToSI_Offset, Notes_URL). */
  datatype Unit = Unit(id: string, name: string, kind: string, siName: string,
                       mult: real, offset: real, notesUrl: string)

  const Table: seq<Unit> := [
    Unit("U_J", "joule", "Energy", "J", 1.0, 0.0, "https://www.bipm.org/en/measurement-units"),
    Unit("U_eV", "electronvolt", "Energy", "J", 1.602176634e-19, 0.0, "https://physics.nist.gov/cgi-bin/cuu/Value?evj="),
    Unit("U_ftlbf", "foot-pound force", "Energy", "J", 1.3558179483314, 0.0, "https://www.convertunits.com/from/ft-lbf/to/joule"),
    Unit("U_K", "kelvin", "Temperature", "K", 1.0, 0.0, "https://www.bipm.org/documents/20126/41483022/SI-Brochure-9-concise-EN.pdf"),
    Unit("U_C", "degree Celsius", "Temperature", "K", 1.0, 273.15, "https://www.bipm.org/documents/20126/41483022/SI-Brochure-9-concise-EN.pdf"),
    Unit("U_kg", "kilogram", "Mass", "kg", 1.0, 0.0, "https://www.bipm.org/en/measurement-units"),
    Unit("U_mps", "metre per second", "Speed", "m/s", 1.0, 0.0, "https://www.bipm.org/documents/20126/41483022/SI-Brochure-9-EN.pdf"),
    Unit("U_Coul", "coulomb", "Charge", "C", 1.0, 0.0, "https://www.bipm.org/en/measurement-units")
  ]

  /** The UnitID column. */
  function Ids(table: seq<Unit>): seq<string>
  {
    Column(table, (u: Unit) => u.id)
  }

  /** The first row whose UnitID equals `id` exactly; None is the lookup's #N/A. */
  function Find(table: seq<Unit>, id: string): (r: Option<Unit>)
    ensures r.Some? ==> r.value.id == id && r.value in table
  {
    match IndexOf(Ids(table), id)
    case None => None
    case Some(i) => Some(table[i])
  }

  /** Find returns the first unit with that id, and fails only when no
      unit has it. */
  lemma FindFirst(table: seq<Unit>, id: string)
    ensures Find(table, id).Some? ==> exists i :: 0 <= i < |table| && table[i] == Find(table, id).value
                                                 && forall j :: 0 <= j < i ==> table[j].id != id
    ensures Find(table, id).None? <==> forall u :: u in table ==> u.id != id
  {
    var ids := Ids(table);
    IndexOfFirst(ids, id);
    match IndexOf(ids, id)
    case None =>
      forall u | u in table ensures u.id != id {
        var i :| 0 <= i < |table| && table[i] == u;
        assert ids[i] == u.id;
      }
    case Some(i) =>
      assert table[i] == Find(table, id).value;
      assert forall j :: 0 <= j < i ==> table[j].id != id by {
        forall j | 0 <= j < i ensures table[j].id != id {
          assert ids[j] == table[j].id;
        }
      }
  }

  /** The affine map x * mult + offset. */
  function AffineMap(x: real, mult: real, offset: real): real
  {
    x * mult + offset
  }

  /** Value in the unit -> value in the SI base unit. */
  function ToSI(u: Unit, x: real): real
  {
    AffineMap(x, u.mult, u.offset)
  }

  /** Value in the SI base unit -> value in the unit (the inverse map). */
  function FromSI(u: Unit, si: real): real
    requires u.mult != 0.0
  {
    (si - u.offset) / u.mult
  }

  /** Conversion of a raw value given by unit id; None when the id is not registered. */
  function Convert(table: seq<Unit>, id: string, x: real): (r: Option<real>)
    ensures r.None? <==> id !in Ids(table)
    ensures r.Some? ==> exists u :: u in table && u.id == id && r.value == x * u.mult + u.offset
  {
    match Find(table, id)
    case None => None
    case Some(u) => Some(ToSI(u, x))
  }

  /** Converting to SI and back, or from SI and back, is the identity. */
  lemma RoundTrip(u: Unit, x: real)
    requires u.mult != 0.0
    ensures FromSI(u, ToSI(u, x)) == x
    ensures ToSI(u, FromSI(u, x)) == x
  {
  }

  /** Two raw values with the same SI value are equal (the conversion loses nothing). */
  lemma ToSIInjective(u: Unit, x: real, y: real)
    requires u.mult != 0.0
    ensures ToSI(u, x) == ToSI(u, y) <==> x == y
  {
    if ToSI(u, x) == ToSI(u, y) {
      RoundTrip(u, x);
      RoundTrip(u, y);
    }
  }

  /** Every registered multiplier is positive, so every unit converts back. */
  lemma TableInvertible()
    ensures forall u :: u in Table ==> u.mult > 0.0
  {
  }

  /** Unit ids are unique, so the first exact match is the only one. */
  lemma IdsUnique()
    ensures forall i, j :: 0 <= i < j < |Table| ==> Table[i].id != Table[j].id
  {
  }

  /** Degree Celsius is the only unit with a non-zero offset, so the offset
      may not be assumed zero. */
  lemma OnlyCelsiusHasOffset()
    ensures forall u :: u in Table ==> (u.offset != 0.0 <==> u.id == "U_C")
  {
  }

  /** With unique ids, looking up the id of row i finds row i. */
  lemma FindRow(table: seq<Unit>, i: nat)
    requires i < |table|
    requires forall a, b :: 0 <= a < b < |table| ==> table[a].id != table[b].id
    ensures Find(table, table[i].id) == Some(table[i])
  {
    IndexOfIsFirst(Ids(table), table[i].id, i);
  }

  /** Looking up the id of any registered unit finds that unit. */
  lemma FindInTable(i: nat)
    requires i < |Table|
    ensures Find(Table, Table[i].id) == Some(Table[i])
  {
    IdsUnique();
    FindRow(Table, i);
  }

  /** Looking up U_C finds degree Celsius, whose offset is 273.15. */
  lemma FindCelsius()
    ensures Find(Table, "U_C") == Some(Table[4]) && Table[4].offset == 273.15
  {
    assert Table[4].id == "U_C";
    FindInTable(4);
  }

  /** A unit with factor 1 and offset 0 is its SI base unit: conversion is the identity. */
  lemma BaseUnitToSI(u: Unit, x: real)
    requires u.mult == 1.0 && u.offset == 0.0
    ensures ToSI(u, x) == x
  {
  }

  /** Dividing by a unit's factor, as the sheet does for a unit without
      offset, and converting back gives the SI value again. */
  lemma DivideRoundTrip(u: Unit, x: real, mult: real)
    requires u.mult == mult && mult != 0.0 && u.offset == 0.0
    ensures ToSI(u, x / mult) == x
  {
  }

  /** Subtracting a unit's offset, as the sheet does for a unit of factor 1,
      and converting back gives the SI value again. */
  lemma OffsetRoundTrip(u: Unit, x: real, offset: real)
    requires u.mult == 1.0 && u.offset == offset
    ensures ToSI(u, x - offset) == x
  {
  }
}
