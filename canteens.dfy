/** The static table of canteens the bot offers, in the order of its selection buttons. */
module Canteens {
  import opened Wrappers
  import opened Lists

  datatype Canteen = Canteen(id: int, name: string)

  const CANTEENS: seq<Canteen> := [
    Canteen(321, "Mensa TU Hardenbergstraße"),
    Canteen(538, "Mensa TU Marchstraße"),
    Canteen(540, "Mensa Pastaria TU Architektur"),
    Canteen(541, "Backshop TU Wetterleuchten"),
    Canteen(631, "Mensa Pasteria TU Veggie 2.0 - Die vegane Mensa")
  ]

  /** The button tokens the other callback handlers claim; a canteen selection must avoid them. */
  const RESERVED_TOKENS: seq<string> := ["yes", "no", "correct", "incorrect"]

  predicate IsCanteenId(id: int) {
    exists i :: 0 <= i < |CANTEENS| && CANTEENS[i].id == id
  }

  predicate IsCanteenName(name: string) {
    exists i :: 0 <= i < |CANTEENS| && CANTEENS[i].name == name
  }

  /** The first table row whose name equals `name`. */
  function FindByName(name: string): (r: Option<Canteen>)
    ensures r.Some? ==> r.value in CANTEENS && r.value.name == name && IsCanteenId(r.value.id)
    ensures r.None? <==> !IsCanteenName(name)
  {
    Find(CANTEENS, (c: Canteen) => c.name == name)
  }

  /** The labels (and callback tokens) of the canteen selection buttons, one per table row. */
  function ButtonLabels(): (r: seq<string>)
    ensures |r| == |CANTEENS|
    ensures forall i :: 0 <= i < |r| ==> r[i] == CANTEENS[i].name
  {
    Map(CANTEENS, (c: Canteen) => c.name)
  }

  lemma TableShape()
    ensures |CANTEENS| == 5
    ensures ButtonLabels() == ["Mensa TU Hardenbergstraße", "Mensa TU Marchstraße",
                               "Mensa Pastaria TU Architektur", "Backshop TU Wetterleuchten",
                               "Mensa Pasteria TU Veggie 2.0 - Die vegane Mensa"]
  {
  }

  lemma NamesDistinct()
    ensures forall i, j :: 0 <= i < j < |CANTEENS| ==> CANTEENS[i].name != CANTEENS[j].name
  {
  }

  lemma IdsDistinctAndPositive()
    ensures forall i, j :: 0 <= i < j < |CANTEENS| ==> CANTEENS[i].id != CANTEENS[j].id
    ensures forall i :: 0 <= i < |CANTEENS| ==> CANTEENS[i].id > 0
  {
  }

  /** Looking up any listed name yields that very row, so the first-match lookup is unambiguous. */
  lemma LookupOwnName(i: int)
    requires 0 <= i < |CANTEENS|
    ensures FindByName(CANTEENS[i].name) == Some(CANTEENS[i])
  {
    NamesDistinct();
    var p := (c: Canteen) => c.name == CANTEENS[i].name;
    assert forall k :: 0 <= k < i ==> !p(CANTEENS[k]);
  }

  lemma MarchstrasseIs538()
    ensures FindByName("Mensa TU Marchstraße") == Some(Canteen(538, "Mensa TU Marchstraße"))
  {
    LookupOwnName(1);
  }

  lemma NoReservedName()
    ensures forall i, t :: 0 <= i < |CANTEENS| && 0 <= t < |RESERVED_TOKENS| ==> CANTEENS[i].name != RESERVED_TOKENS[t]
  {
  }
}
