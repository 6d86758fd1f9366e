/** The registry of routing areas and their cells (src/sgsn/gprs_routing_area.c). */
module RoutingArea {
  // ---- Data ----

  datatype Rai = Rai(lai: int, rac: int)
  datatype Ran = Geran | Utran

  /** A cell; `ra` is the key of the routing area it points back to. */
  datatype Cell = Cell(ra: nat, ran: Ran, id: int, nsei: int, bvci: int)

  /** A routing area; `key` stands for its address. */
  datatype Ra = Ra(key: nat, rai: Rai, ran: Ran, rnc: int, cells: seq<Cell>)

  /** The routing areas, the newest first; `next` is a key not yet used. */
  datatype Registry = Registry(ras: seq<Ra>, next: nat)

  // ---- Searches ----

  /** sgsn_ra_get_ra: the first area of that identity, or the length of the list. */
  function FindRa(ras: seq<Ra>, rai: Rai): (i: nat)
    ensures i <= |ras| && (i < |ras| ==> ras[i].rai == rai)
    ensures forall k :: 0 <= k < i ==> ras[k].rai != rai
  {
    if ras == [] || ras[0].rai == rai then 0 else 1 + FindRa(ras[1..], rai)
  }

  /** The first GERAN cell of that identity. */
  function FindCell(cells: seq<Cell>, id: int): (i: nat)
    ensures i <= |cells| && (i < |cells| ==> cells[i].ran.Geran? && cells[i].id == id)
    ensures forall k :: 0 <= k < i ==> !(cells[k].ran.Geran? && cells[k].id == id)
  {
    if cells == [] || (cells[0].ran.Geran? && cells[0].id == id) then 0 else 1 + FindCell(cells[1..], id)
  }

  predicate Holds(r: Ra, lai: int, id: int) {
    r.ran.Geran? && r.rai.lai == lai && FindCell(r.cells, id) < |r.cells|
  }

  /** sgsn_ra_geran_get_cell_by_lai: the first area of the location area that has such a cell. */
  function FindLai(ras: seq<Ra>, lai: int, id: int): (i: nat)
    ensures i <= |ras| && (i < |ras| ==> Holds(ras[i], lai, id))
    ensures forall k :: 0 <= k < i ==> !Holds(ras[k], lai, id)
  {
    if ras == [] || Holds(ras[0], lai, id) then 0 else 1 + FindLai(ras[1..], lai, id)
  }

  datatype Place = Nowhere | Link(nsei: int, bvci: int)

  function PlaceIn(r: Ra, id: int): Place {
    var j := FindCell(r.cells, id);
    if r.ran.Utran? || j == |r.cells| then Nowhere else Link(r.cells[j].nsei, r.cells[j].bvci)
  }

  /** sgsn_ra_geran_get_cell_by_cgi_ps: over which link a cell is reached. */
  function Lookup(ras: seq<Ra>, rai: Rai, id: int): Place {
    var i := FindRa(ras, rai);
    if i == |ras| then Nowhere else PlaceIn(ras[i], id)
  }

  // ---- Changes ----

  function Cut<T>(s: seq<T>, i: nat): seq<T>
    requires i < |s|
  {
    s[..i] + s[i + 1..]
  }

  /** _sgsn_ra_cell_free with its area dropped when it was the last cell. */
  function DropCell(ras: seq<Ra>, i: nat, j: nat): seq<Ra>
    requires i < |ras| && j < |ras[i].cells|
  {
    var left := Cut(ras[i].cells, j);
    if left == [] then Cut(ras, i) else ras[i := ras[i].(cells := left)]
  }

  function AddCell(ras: seq<Ra>, i: nat, id: int, nsei: int, bvci: int): seq<Ra>
    requires i < |ras|
  {
    ras[i := ras[i].(cells := [Cell(ras[i].key, Geran, id, nsei, bvci)] + ras[i].cells)]
  }

  function MoveLink(ras: seq<Ra>, i: nat, j: nat, nsei: int, bvci: int): seq<Ra>
    requires i < |ras| && j < |ras[i].cells|
  {
    ras[i := ras[i].(cells := ras[i].cells[j := ras[i].cells[j].(nsei := nsei, bvci := bvci)])]
  }

  /** The outcome of an operation; Clash is its error return. */
  datatype Outcome = Done | Clash

  /** sgsn_ra_geran_bvc_cell_reset_ind. */
  function CellReset(g: Registry, nsei: int, bvci: int, rai: Rai, id: int): (Registry, Outcome) {
    var i := FindRa(g.ras, rai);
    if i == |g.ras| then
      var created := Ra(g.next, rai, Geran, 0, [Cell(g.next, Geran, id, nsei, bvci)]);
      (Registry([created] + g.ras, g.next + 1), Done)
    else if g.ras[i].ran.Utran? then (g, Clash)
    else
      var j := FindCell(g.ras[i].cells, id);
      if j < |g.ras[i].cells| then (g.(ras := MoveLink(g.ras, i, j, nsei, bvci)), Done)
      else
        var o := FindLai(g.ras, rai.lai, id);
        if o == |g.ras| then (g.(ras := AddCell(g.ras, i, id, nsei, bvci)), Done)
        else
          var left := DropCell(g.ras, o, FindCell(g.ras[o].cells, id));
          (g.(ras := AddFound(left, rai, id, nsei, bvci)), Done)
  }

  /** The new cell goes to the area found before, which the removal of a cell of another area leaves in the list. */
  function AddFound(ras: seq<Ra>, rai: Rai, id: int, nsei: int, bvci: int): seq<Ra> {
    var i := FindRa(ras, rai);
    if i == |ras| then ras else AddCell(ras, i, id, nsei, bvci)
  }

  function Others(cells: seq<Cell>, nsei: int): seq<Cell> {
    if cells == [] then []
    else (if cells[0].ran.Geran? && cells[0].nsei == nsei then [] else [cells[0]]) + Others(cells[1..], nsei)
  }

  /** sgsn_ra_geran_nsei_failure_ind. */
  function NseiFailure(ras: seq<Ra>, nsei: int): seq<Ra> {
    if ras == [] then []
    else
      var rest := NseiFailure(ras[1..], nsei);
      if ras[0].ran.Utran? then [ras[0]] + rest
      else
        var left := Others(ras[0].cells, nsei);
        if left == [] then rest else [ras[0].(cells := left)] + rest
  }

  /** sgsn_ra_utran_register. */
  function UtranRegister(g: Registry, rai: Rai, rnc: int): (Registry, Outcome) {
    var i := FindRa(g.ras, rai);
    if i == |g.ras| then (Registry([Ra(g.next, rai, Utran, rnc, [])] + g.ras, g.next + 1), Done)
    else if g.ras[i].ran.Geran? then (g, Clash)
    else (g.(ras := g.ras[i := g.ras[i].(rnc := rnc)]), Done)
  }

  // ---- The invariant ----

  predicate CellsOk(r: Ra) {
    && (forall j :: 0 <= j < |r.cells| ==> r.cells[j].ra == r.key && r.cells[j].ran.Geran?)
    && (forall j, k :: 0 <= j < k < |r.cells| ==> r.cells[j].id != r.cells[k].id)
  }

  predicate RaOk(r: Ra, next: nat) {
    r.key < next && CellsOk(r) && (r.ran.Geran? <==> r.cells != [])
  }

  predicate Apart(a: Ra, b: Ra) { a.rai != b.rai && a.key != b.key }

  predicate RasOk(ras: seq<Ra>, next: nat) {
    && (forall i :: 0 <= i < |ras| ==> RaOk(ras[i], next))
    && (forall i, j :: 0 <= i < j < |ras| ==> Apart(ras[i], ras[j]))
  }

  /** Areas have distinct identities, a cell points back to its area, its identity is its own there, and no GERAN area
      is empty. */
  predicate Inv(g: Registry) { RasOk(g.ras, g.next) }

  lemma SetOk(ras: seq<Ra>, next: nat, i: nat, r: Ra)
    requires RasOk(ras, next) && i < |ras| && RaOk(r, next) && r.rai == ras[i].rai && r.key == ras[i].key
    ensures RasOk(ras[i := r], next)
  {
    hide RaOk;
  }

  lemma CutOk(ras: seq<Ra>, next: nat, i: nat)
    requires RasOk(ras, next) && i < |ras|
    ensures RasOk(Cut(ras, i), next)
  {
    hide RaOk, Apart;
    var c := Cut(ras, i);
    forall k | 0 <= k < |c| ensures c[k] == ras[if k < i then k else k + 1] { }
  }

  lemma PutOk(ras: seq<Ra>, r: Ra, next: nat)
    requires RasOk(ras, next) && RaOk(r, next + 1) && r.key == next
    requires forall i :: 0 <= i < |ras| ==> ras[i].rai != r.rai
    ensures RasOk([r] + ras, next + 1)
  {
    hide CellsOk;
    var s := [r] + ras;
    forall i, j | 0 <= i < j < |s| ensures Apart(s[i], s[j]) {
      assert s[j] == ras[j - 1] && RaOk(ras[j - 1], next);
      if i > 0 { assert Apart(ras[i - 1], ras[j - 1]); }
    }
    forall i | 0 <= i < |s| ensures RaOk(s[i], next + 1) {
      if i > 0 { assert RaOk(ras[i - 1], next); }
    }
  }

  lemma CutCellsOk(r: Ra, j: nat)
    requires CellsOk(r) && j < |r.cells|
    ensures CellsOk(r.(cells := Cut(r.cells, j)))
  {
    var c := Cut(r.cells, j);
    forall k | 0 <= k < |c| ensures c[k] == r.cells[if k < j then k else k + 1] { }
  }

  lemma DropCellOk(ras: seq<Ra>, next: nat, i: nat, j: nat)
    requires RasOk(ras, next) && i < |ras| && j < |ras[i].cells|
    ensures RasOk(DropCell(ras, i, j), next)
  {
    hide RasOk, Cut;
    assert RaOk(ras[i], next) by { RaAt(ras, next, i); }
    var left := Cut(ras[i].cells, j);
    CutCellsOk(ras[i], j);
    if left == [] { CutOk(ras, next, i); } else { SetOk(ras, next, i, ras[i].(cells := left)); }
  }

  lemma RaAt(ras: seq<Ra>, next: nat, i: nat)
    requires RasOk(ras, next) && i < |ras|
    ensures RaOk(ras[i], next)
  {
  }

  lemma AddCellOk(ras: seq<Ra>, next: nat, i: nat, id: int, nsei: int, bvci: int)
    requires RasOk(ras, next) && i < |ras| && ras[i].ran.Geran? && FindCell(ras[i].cells, id) == |ras[i].cells|
    ensures RasOk(AddCell(ras, i, id, nsei, bvci), next)
  {
    hide RasOk;
    RaAt(ras, next, i);
    var cells := [Cell(ras[i].key, Geran, id, nsei, bvci)] + ras[i].cells;
    forall j, k | 0 <= j < k < |cells| ensures cells[j].id != cells[k].id {
      assert cells[k] == ras[i].cells[k - 1];
    }
    SetOk(ras, next, i, ras[i].(cells := cells));
  }

  lemma MoveLinkOk(ras: seq<Ra>, next: nat, i: nat, j: nat, nsei: int, bvci: int)
    requires RasOk(ras, next) && i < |ras| && j < |ras[i].cells|
    ensures RasOk(MoveLink(ras, i, j, nsei, bvci), next)
  {
    hide RasOk;
    RaAt(ras, next, i);
    SetOk(ras, next, i, ras[i].(cells := ras[i].cells[j := ras[i].cells[j].(nsei := nsei, bvci := bvci)]));
  }

  // ---- Where cells are found ----

  lemma FindsCell(r: Ra, j: nat)
    requires CellsOk(r) && j < |r.cells|
    ensures FindCell(r.cells, r.cells[j].id) == j
  {
    assert forall k :: 0 <= k < j ==> r.cells[k].id != r.cells[j].id;
  }

  lemma PlaceOf(r: Ra, j: nat)
    requires CellsOk(r) && r.ran.Geran? && j < |r.cells|
    ensures PlaceIn(r, r.cells[j].id) == Link(r.cells[j].nsei, r.cells[j].bvci)
  {
    FindsCell(r, j);
  }

  lemma LookupAt(ras: seq<Ra>, next: nat, k: nat, id: int)
    requires RasOk(ras, next) && k < |ras|
    ensures Lookup(ras, ras[k].rai, id) == PlaceIn(ras[k], id)
  {
    hide RaOk, PlaceIn;
    forall m | 0 <= m < k ensures ras[m].rai != ras[k].rai { assert Apart(ras[m], ras[k]); }
  }

  lemma LookupNone(ras: seq<Ra>, rai: Rai, id: int)
    requires forall k :: 0 <= k < |ras| ==> ras[k].rai != rai
    ensures Lookup(ras, rai, id) == Nowhere
  {
  }

  lemma LookupSet(ras: seq<Ra>, next: nat, i: nat, r: Ra, rai: Rai, id: int)
    requires RasOk(ras, next) && i < |ras| && RaOk(r, next) && r.rai == ras[i].rai && r.key == ras[i].key
    ensures Lookup(ras[i := r], rai, id) == if rai == r.rai then PlaceIn(r, id) else Lookup(ras, rai, id)
  {
    hide RaOk, PlaceIn, RasOk;
    SetOk(ras, next, i, r);
    var k := FindRa(ras, rai);
    if rai == r.rai {
      LookupAt(ras[i := r], next, i, id);
    } else if k < |ras| {
      LookupAt(ras[i := r], next, k, id);
    } else {
      LookupNone(ras[i := r], rai, id);
    }
  }

  lemma LookupCut(ras: seq<Ra>, next: nat, i: nat, rai: Rai, id: int)
    requires RasOk(ras, next) && i < |ras|
    ensures Lookup(Cut(ras, i), rai, id) == if rai == ras[i].rai then Nowhere else Lookup(ras, rai, id)
  {
    hide RaOk, PlaceIn;
    CutOk(ras, next, i);
    var c, k := Cut(ras, i), FindRa(ras, rai);
    if rai == ras[i].rai {
      forall m | 0 <= m < |c| ensures c[m].rai != rai {
        if m < i { assert c[m] == ras[m] && Apart(ras[m], ras[i]); } else { assert c[m] == ras[m + 1] && Apart(ras[i], ras[m + 1]); }
      }
      LookupNone(c, rai, id);
    } else if k < |ras| {
      var m := if k < i then k else k - 1;
      assert c[m] == ras[k];
      LookupAt(c, next, m, id);
    } else {
      forall m | 0 <= m < |c| ensures c[m].rai != rai { assert c[m] == ras[if m < i then m else m + 1]; }
      LookupNone(c, rai, id);
    }
  }

  lemma LookupPut(ras: seq<Ra>, r: Ra, rai: Rai, id: int)
    ensures Lookup([r] + ras, rai, id) == if rai == r.rai then PlaceIn(r, id) else Lookup(ras, rai, id)
  {
    var s := [r] + ras;
    assert s[1..] == ras;
  }

  lemma PlaceCut(r: Ra, j: nat, id: int)
    requires CellsOk(r) && r.ran.Geran? && j < |r.cells|
    ensures PlaceIn(r.(cells := Cut(r.cells, j)), id) == if id == r.cells[j].id then Nowhere else PlaceIn(r, id)
  {
    var c := r.(cells := Cut(r.cells, j));
    CutCellsOk(r, j);
    var k := FindCell(r.cells, id);
    if id == r.cells[j].id {
      forall m | 0 <= m < |c.cells| ensures c.cells[m].id != id {
        assert c.cells[m] == r.cells[if m < j then m else m + 1];
      }
    } else if k < |r.cells| {
      var m := if k < j then k else k - 1;
      assert c.cells[m] == r.cells[k];
      PlaceOf(c, m);
    } else {
      forall m | 0 <= m < |c.cells| ensures c.cells[m].id != id {
        assert c.cells[m] == r.cells[if m < j then m else m + 1];
      }
    }
  }

  lemma PlaceAdd(r: Ra, cell: Cell, id: int)
    requires r.ran.Geran? && cell.ran.Geran?
    ensures PlaceIn(r.(cells := [cell] + r.cells), id) == if id == cell.id then Link(cell.nsei, cell.bvci) else PlaceIn(r, id)
  {
    assert ([cell] + r.cells)[1..] == r.cells;
  }

  lemma PlaceMove(r: Ra, j: nat, nsei: int, bvci: int, id: int)
    requires CellsOk(r) && r.ran.Geran? && j < |r.cells|
    ensures PlaceIn(r.(cells := r.cells[j := r.cells[j].(nsei := nsei, bvci := bvci)]), id)
         == if id == r.cells[j].id then Link(nsei, bvci) else PlaceIn(r, id)
  {
    var m := r.(cells := r.cells[j := r.cells[j].(nsei := nsei, bvci := bvci)]);
    assert CellsOk(m);
    var k := FindCell(r.cells, id);
    if id == r.cells[j].id {
      PlaceOf(m, j);
    } else if k < |r.cells| {
      PlaceOf(m, k);
    } else {
      forall x | 0 <= x < |m.cells| ensures m.cells[x].id != id { assert r.cells[x].id != id; }
    }
  }

  lemma LookupDrop(ras: seq<Ra>, next: nat, i: nat, j: nat, rai: Rai, id: int)
    requires RasOk(ras, next) && i < |ras| && j < |ras[i].cells|
    ensures Lookup(DropCell(ras, i, j), rai, id)
         == if rai == ras[i].rai && id == ras[i].cells[j].id then Nowhere else Lookup(ras, rai, id)
  {
    hide RasOk, Cut, PlaceIn, Lookup;
    RaAt(ras, next, i);
    var left := Cut(ras[i].cells, j);
    CutCellsOk(ras[i], j);
    PlaceCut(ras[i], j, id);
    LookupAt(ras, next, i, id);
    if left == [] {
      LookupCut(ras, next, i, rai, id);
      PlaceEmpty(ras[i].(cells := left), id);
    } else {
      LookupSet(ras, next, i, ras[i].(cells := left), rai, id);
    }
  }

  lemma PlaceEmpty(r: Ra, id: int)
    requires r.cells == []
    ensures PlaceIn(r, id) == Nowhere
  {
  }

  lemma LookupAdd(ras: seq<Ra>, next: nat, i: nat, id: int, nsei: int, bvci: int, rai: Rai, x: int)
    requires RasOk(ras, next) && i < |ras| && ras[i].ran.Geran? && FindCell(ras[i].cells, id) == |ras[i].cells|
    ensures Lookup(AddCell(ras, i, id, nsei, bvci), rai, x)
         == if rai == ras[i].rai && x == id then Link(nsei, bvci) else Lookup(ras, rai, x)
  {
    hide RasOk, PlaceIn, Lookup;
    RaAt(ras, next, i);
    AddCellOk(ras, next, i, id, nsei, bvci);
    var cell := Cell(ras[i].key, Geran, id, nsei, bvci);
    var r := ras[i].(cells := [cell] + ras[i].cells);
    PlaceAdd(ras[i], cell, x);
    LookupAt(ras, next, i, x);
    RaAt(AddCell(ras, i, id, nsei, bvci), next, i);
    LookupSet(ras, next, i, r, rai, x);
  }

  lemma LookupMove(ras: seq<Ra>, next: nat, i: nat, j: nat, nsei: int, bvci: int, rai: Rai, x: int)
    requires RasOk(ras, next) && i < |ras| && ras[i].ran.Geran? && j < |ras[i].cells|
    ensures Lookup(MoveLink(ras, i, j, nsei, bvci), rai, x)
         == if rai == ras[i].rai && x == ras[i].cells[j].id then Link(nsei, bvci) else Lookup(ras, rai, x)
  {
    hide RasOk, PlaceIn, Lookup;
    RaAt(ras, next, i);
    MoveLinkOk(ras, next, i, j, nsei, bvci);
    RaAt(MoveLink(ras, i, j, nsei, bvci), next, i);
    PlaceMove(ras[i], j, nsei, bvci, x);
    LookupAt(ras, next, i, x);
    LookupSet(ras, next, i, ras[i].(cells := ras[i].cells[j := ras[i].cells[j].(nsei := nsei, bvci := bvci)]), rai, x);
  }

  // ---- A cell is reset ----

  /** The area to which a cell of the same location area moves from another area, if the reset finds one. */
  predicate Moves(ras: seq<Ra>, rai: Rai, id: int) {
    var i := FindRa(ras, rai);
    i < |ras| && ras[i].ran.Geran? && FindCell(ras[i].cells, id) == |ras[i].cells| && FindLai(ras, rai.lai, id) < |ras|
  }

  /** The assertion before the old cell is freed: it is never a cell of the area that was reset. */
  lemma AssertionHolds(g: Registry, rai: Rai, id: int)
    requires Inv(g) && Moves(g.ras, rai, id)
    ensures var o := FindLai(g.ras, rai.lai, id);
      var cell := g.ras[o].cells[FindCell(g.ras[o].cells, id)];
      cell.ra != g.ras[FindRa(g.ras, rai)].key && g.ras[o].rai != rai
  {
    var i, o := FindRa(g.ras, rai), FindLai(g.ras, rai.lai, id);
    assert Holds(g.ras[o], rai.lai, id);
    RaAt(g.ras, g.next, o);
    assert Apart(g.ras[i], g.ras[o]) || Apart(g.ras[o], g.ras[i]);
  }

  /** With a cell moving in, its new area is still there once the old cell is freed, and has no such cell. */
  lemma TargetStays(g: Registry, rai: Rai, id: int)
    requires Inv(g) && Moves(g.ras, rai, id)
    ensures var o := FindLai(g.ras, rai.lai, id);
      var left := DropCell(g.ras, o, FindCell(g.ras[o].cells, id));
      var i := FindRa(left, rai);
      i < |left| && left[i].ran.Geran? && FindCell(left[i].cells, id) == |left[i].cells|
  {
    hide RasOk, FindLai, DropCell;
    var i, o := FindRa(g.ras, rai), FindLai(g.ras, rai.lai, id);
    AssertionHolds(g, rai, id);
    OtherStays(g.ras, g.next, o, FindCell(g.ras[o].cells, id), i);
  }

  lemma OtherStays(ras: seq<Ra>, next: nat, o: nat, j: nat, i: nat)
    requires RasOk(ras, next) && o < |ras| && i < |ras| && ras[o].rai != ras[i].rai && j < |ras[o].cells|
    ensures var left := DropCell(ras, o, j);
      var k := FindRa(left, ras[i].rai); k < |left| && left[k] == ras[i]
  {
    hide RaOk;
    var left := DropCell(ras, o, j);
    DropCellOk(ras, next, o, j);
    var k := if Cut(ras[o].cells, j) == [] && o < i then i - 1 else i;
    assert left[k] == ras[i];
    forall m | 0 <= m < k ensures left[m].rai != left[k].rai { assert Apart(left[m], left[k]); }
  }

  lemma CellResetOk(g: Registry, nsei: int, bvci: int, rai: Rai, id: int)
    requires Inv(g)
    ensures Inv(CellReset(g, nsei, bvci, rai, id).0)
  {
    hide RasOk, DropCell, AddCell, MoveLink;
    var i := FindRa(g.ras, rai);
    if i == |g.ras| {
      PutOk(g.ras, Ra(g.next, rai, Geran, 0, [Cell(g.next, Geran, id, nsei, bvci)]), g.next);
    } else if g.ras[i].ran.Geran? {
      var j, o := FindCell(g.ras[i].cells, id), FindLai(g.ras, rai.lai, id);
      if j < |g.ras[i].cells| {
        MoveLinkOk(g.ras, g.next, i, j, nsei, bvci);
      } else if o == |g.ras| {
        AddCellOk(g.ras, g.next, i, id, nsei, bvci);
      } else {
        var d := FindCell(g.ras[o].cells, id);
        DropCellOk(g.ras, g.next, o, d);
        TargetStays(g, rai, id);
        var left := DropCell(g.ras, o, d);
        AddCellOk(left, g.next, FindRa(left, rai), id, nsei, bvci);
      }
    }
  }

  /** Where a cell is found after a reset. */
  function ResetPlace(ras: seq<Ra>, nsei: int, bvci: int, rai: Rai, id: int, r: Rai, x: int): Place {
    if r == rai && x == id then Link(nsei, bvci)
    else if Moves(ras, rai, id) && x == id && r == ras[FindLai(ras, rai.lai, id)].rai then Nowhere
    else Lookup(ras, r, x)
  }

  /** What a reset does to every lookup: the cell is reached over the given link, a cell that moved is gone from its old
      area, and nothing else changes. It fails, changing nothing, exactly when the area is a UTRAN one. */
  lemma ResetLookup(g: Registry, nsei: int, bvci: int, rai: Rai, id: int, r: Rai, x: int)
    requires Inv(g)
    ensures var (h, rc) := CellReset(g, nsei, bvci, rai, id);
      && (rc.Clash? <==> FindRa(g.ras, rai) < |g.ras| && g.ras[FindRa(g.ras, rai)].ran.Utran?) && (rc.Clash? ==> h == g)
      && (rc.Done? ==> Lookup(h.ras, r, x) == ResetPlace(g.ras, nsei, bvci, rai, id, r, x))
  {
    hide RasOk, DropCell, AddCell, MoveLink, Lookup;
    var i := FindRa(g.ras, rai);
    if i == |g.ras| {
      var area := Ra(g.next, rai, Geran, 0, [Cell(g.next, Geran, id, nsei, bvci)]);
      LookupPut(g.ras, area, r, x);
      NewArea(area, x);
      if r == rai { LookupNone(g.ras, r, x); }
    } else if g.ras[i].ran.Geran? {
      var j, o := FindCell(g.ras[i].cells, id), FindLai(g.ras, rai.lai, id);
      if j < |g.ras[i].cells| {
        LookupMove(g.ras, g.next, i, j, nsei, bvci, r, x);
      } else if o == |g.ras| {
        LookupAdd(g.ras, g.next, i, id, nsei, bvci, r, x);
      } else {
        var d := FindCell(g.ras[o].cells, id);
        var left := DropCell(g.ras, o, d);
        DropCellOk(g.ras, g.next, o, d);
        TargetStays(g, rai, id);
        LookupDrop(g.ras, g.next, o, d, r, x);
        LookupAdd(left, g.next, FindRa(left, rai), id, nsei, bvci, r, x);
      }
    }
  }

  lemma NewArea(r: Ra, x: int)
    requires r.ran.Geran? && |r.cells| == 1 && r.cells[0].ran.Geran?
    ensures PlaceIn(r, x) == if x == r.cells[0].id then Link(r.cells[0].nsei, r.cells[0].bvci) else Nowhere
  {
    assert r.cells[1..] == [];
  }

  // ---- A link fails ----

  lemma OthersNone(nsei: int)
    ensures Others([], nsei) == []
  {
  }

  lemma OthersCons(cells: seq<Cell>, nsei: int)
    requires cells != []
    ensures Others(cells, nsei)
         == (if cells[0].ran.Geran? && cells[0].nsei == nsei then [] else [cells[0]]) + Others(cells[1..], nsei)
  {
  }

  lemma {:induction false} OthersOk(r: Ra, nsei: int)
    requires CellsOk(r)
    ensures CellsOk(r.(cells := Others(r.cells, nsei)))
    ensures forall c <- Others(r.cells, nsei) :: c in r.cells && c.nsei != nsei
    ensures forall c <- r.cells :: c.nsei != nsei ==> c in Others(r.cells, nsei)
    decreases |r.cells|
  {
    OthersNone(nsei);
    if r.cells != [] {
      hide Others;
      OthersCons(r.cells, nsei);
      var tail := r.(cells := r.cells[1..]);
      assert r.cells == [r.cells[0]] + tail.cells;
      OthersOk(tail, nsei);
      var rest := Others(tail.cells, nsei);
      if r.cells[0].nsei != nsei {
        var all := [r.cells[0]] + rest;
        forall j, k | 0 <= j < k < |all| ensures all[j].id != all[k].id {
          assert all[k] == rest[k - 1] && rest[k - 1] in tail.cells;
          if j == 0 {
            var m :| 0 <= m < |tail.cells| && tail.cells[m] == all[k];
            assert r.cells[m + 1] == all[k];
          }
        }
      }
    }
  }

  /** Within an area, exactly the cells on other links are still found. */
  lemma PlaceOthers(r: Ra, nsei: int, id: int)
    requires CellsOk(r) && r.ran.Geran?
    ensures PlaceIn(r.(cells := Others(r.cells, nsei)), id)
         == if PlaceIn(r, id).Link? && PlaceIn(r, id).nsei == nsei then Nowhere else PlaceIn(r, id)
  {
    var s := r.(cells := Others(r.cells, nsei));
    OthersOk(r, nsei);
    var j, k := FindCell(r.cells, id), FindCell(s.cells, id);
    assert j < |r.cells| && r.cells[j].nsei != nsei ==> r.cells[j] in s.cells;
    if k < |s.cells| {
      var m :| 0 <= m < |r.cells| && r.cells[m] == s.cells[k];
      FindsCell(r, m);
    }
  }

  lemma {:induction false} NseiFailureOk(ras: seq<Ra>, next: nat, nsei: int)
    requires RasOk(ras, next)
    ensures RasOk(NseiFailure(ras, nsei), next)
    ensures forall r <- NseiFailure(ras, nsei) :: exists q <- ras :: q.rai == r.rai && q.key == r.key
    decreases |ras|
  {
    hide CellsOk;
    if ras != [] {
      RaAt(ras, next, 0);
      TailOk(ras, next);
      NseiFailureOk(ras[1..], next, nsei);
      var rest := NseiFailure(ras[1..], nsei);
      var head := ras[0].(cells := if ras[0].ran.Utran? then ras[0].cells else Others(ras[0].cells, nsei));
      OthersOk(ras[0], nsei);
      forall r | r in rest ensures Apart(head, r) {
        var q :| q in ras[1..] && q.rai == r.rai && q.key == r.key;
        var m :| 0 <= m < |ras| - 1 && ras[1..][m] == q;
        assert Apart(ras[0], ras[m + 1]);
      }
      if ras[0].ran.Utran? || head.cells != [] { HeadOk(head, rest, next); }
      forall r | r in NseiFailure(ras, nsei) ensures exists q <- ras :: q.rai == r.rai && q.key == r.key {
        if r in rest { var q :| q in ras[1..] && q.rai == r.rai && q.key == r.key; assert q in ras; } else { assert ras[0] in ras; }
      }
    }
  }

  lemma TailOk(ras: seq<Ra>, next: nat)
    requires RasOk(ras, next) && ras != []
    ensures RasOk(ras[1..], next) && forall k :: 0 <= k < |ras| - 1 ==> Apart(ras[0], ras[1..][k])
  {
    hide RaOk, Apart;
  }

  lemma HeadOk(r: Ra, rest: seq<Ra>, next: nat)
    requires RaOk(r, next) && RasOk(rest, next) && forall q <- rest :: Apart(r, q)
    ensures RasOk([r] + rest, next)
  {
    hide RaOk;
    var s := [r] + rest;
    forall i, j | 0 <= i < j < |s| ensures Apart(s[i], s[j]) {
      assert s[j] == rest[j - 1] && rest[j - 1] in rest;
      if i > 0 { assert Apart(rest[i - 1], rest[j - 1]); }
    }
  }

  /** The failure of a link takes away exactly its cells, in every area. */
  lemma {:induction false} FailureLookup(ras: seq<Ra>, next: nat, nsei: int, rai: Rai, id: int)
    requires RasOk(ras, next)
    ensures Lookup(NseiFailure(ras, nsei), rai, id)
         == if Lookup(ras, rai, id).Link? && Lookup(ras, rai, id).nsei == nsei then Nowhere else Lookup(ras, rai, id)
    decreases |ras|
  {
    hide PlaceIn, CellsOk;
    if ras != [] {
      var tail, rest := ras[1..], NseiFailure(ras[1..], nsei);
      RaAt(ras, next, 0);
      TailOk(ras, next);
      assert ras == [ras[0]] + tail;
      FailureLookup(tail, next, nsei, rai, id);
      LookupPut(tail, ras[0], rai, id);
      if ras[0].ran.Utran? {
        LookupPut(rest, ras[0], rai, id);
        UtranPlace(ras[0], id);
      } else {
        var left := ras[0].(cells := Others(ras[0].cells, nsei));
        PlaceOthers(ras[0], nsei, id);
        LookupPut(rest, left, rai, id);
        if left.cells == [] {
          PlaceEmpty(left, id);
          if rai == ras[0].rai { LookupNone(tail, rai, id); }
        }
      }
    }
  }

  lemma UtranPlace(r: Ra, id: int)
    requires r.ran.Utran?
    ensures PlaceIn(r, id) == Nowhere
  {
  }

  // ---- UTRAN areas ----

  lemma UtranRegisterOk(g: Registry, rai: Rai, rnc: int, r: Rai, x: int)
    requires Inv(g)
    ensures var (h, rc) := UtranRegister(g, rai, rnc);
      && Inv(h) && Lookup(h.ras, r, x) == Lookup(g.ras, r, x)
      && (rc.Clash? <==> FindRa(g.ras, rai) < |g.ras| && g.ras[FindRa(g.ras, rai)].ran.Geran?)
      && (rc.Done? ==> var i := FindRa(h.ras, rai); i < |h.ras| && h.ras[i].ran.Utran? && h.ras[i].rnc == rnc)
  {
    hide RasOk, Lookup, PlaceIn;
    var i := FindRa(g.ras, rai);
    if i == |g.ras| {
      var area := Ra(g.next, rai, Utran, rnc, []);
      PutOk(g.ras, area, g.next);
      LookupPut(g.ras, area, r, x);
      UtranPlace(area, x);
      if r == rai { LookupNone(g.ras, r, x); }
    } else if g.ras[i].ran.Utran? {
      var area := g.ras[i].(rnc := rnc);
      RaAt(g.ras, g.next, i);
      SetOk(g.ras, g.next, i, area);
      LookupSet(g.ras, g.next, i, area, r, x);
      UtranPlace(area, x);
      UtranPlace(g.ras[i], x);
      LookupAt(g.ras, g.next, i, x);
      FindSet(g.ras, i, area);
    }
  }

  lemma FindSet(ras: seq<Ra>, i: nat, r: Ra)
    requires i < |ras| && r.rai == ras[i].rai && FindRa(ras, r.rai) == i
    ensures FindRa(ras[i := r], r.rai) == i
  {
    var s := ras[i := r];
    assert s[i].rai == r.rai && forall k :: 0 <= k < i ==> s[k] == ras[k];
  }

  // ---- Every run ----

  datatype Event = Reset(nsei: int, bvci: int, rai: Rai, id: int) | Failure(nsei: int) | Register(rai: Rai, rnc: int)

  function Step(g: Registry, e: Event): Registry {
    match e
    case Reset(nsei, bvci, rai, id) => CellReset(g, nsei, bvci, rai, id).0
    case Failure(nsei) => g.(ras := NseiFailure(g.ras, nsei))
    case Register(rai, rnc) => UtranRegister(g, rai, rnc).0
  }

  function Run(events: seq<Event>): Registry {
    if events == [] then Registry([], 0) else Step(Run(events[..|events| - 1]), events[|events| - 1])
  }

  lemma StepOk(g: Registry, e: Event)
    requires Inv(g)
    ensures Inv(Step(g, e))
  {
    hide CellReset, NseiFailure, UtranRegister, RasOk, Lookup;
    match e
    case Reset(nsei, bvci, rai, id) => CellResetOk(g, nsei, bvci, rai, id);
    case Failure(nsei) => NseiFailureOk(g.ras, g.next, nsei);
    case Register(rai, rnc) => UtranRegisterOk(g, rai, rnc, rai, 0);
  }

  /** Every reachable registry is in order, so that a reset never frees a cell of the area that is reset. */
  lemma {:induction false} EveryRun(events: seq<Event>, rai: Rai, id: int)
    ensures Inv(Run(events))
    ensures var ras := Run(events).ras; Moves(ras, rai, id) ==>
      var o := FindLai(ras, rai.lai, id);
      ras[o].cells[FindCell(ras[o].cells, id)].ra != ras[FindRa(ras, rai)].key
    decreases |events|
  {
    hide Step, RasOk, Moves;
    if events == [] {
      EmptyOk();
    } else {
      EveryRun(events[..|events| - 1], rai, id);
      StepOk(Run(events[..|events| - 1]), events[|events| - 1]);
    }
    if Moves(Run(events).ras, rai, id) { AssertionHolds(Run(events), rai, id); }
  }

  lemma EmptyOk()
    ensures RasOk([], 0)
  {
  }

  // ---- Cells of a location area ----

  /** A cell identity is in use in one area of a location area only. */
  ghost predicate Unique(ras: seq<Ra>) {
    forall r: Rai, q: Rai, x: int :: r.lai == q.lai && Lookup(ras, r, x).Link? && Lookup(ras, q, x).Link? ==> r == q
  }

  /** A cell found by its area is found by its location area. */
  lemma FoundByLai(ras: seq<Ra>, rai: Rai, id: int)
    requires Lookup(ras, rai, id).Link?
    ensures FindLai(ras, rai.lai, id) < |ras|
  {
    assert Holds(ras[FindRa(ras, rai)], rai.lai, id);
  }

  lemma FoundInLai(g: Registry, lai: int, id: int)
    requires Inv(g) && FindLai(g.ras, lai, id) < |g.ras|
    ensures var o := FindLai(g.ras, lai, id); g.ras[o].rai.lai == lai && Lookup(g.ras, g.ras[o].rai, id).Link?
  {
    var o := FindLai(g.ras, lai, id);
    assert Holds(g.ras[o], lai, id);
    LookupAt(g.ras, g.next, o, id);
  }

  /** A cell identity is said to be unique in its location area. A reset keeps it so, except exactly when it makes a new
      routing area while the location area has such a cell elsewhere: then the old cell stays. */
  lemma ResetUniqueIff(g: Registry, nsei: int, bvci: int, rai: Rai, id: int)
    requires Inv(g) && Unique(g.ras)
    ensures Unique(CellReset(g, nsei, bvci, rai, id).0.ras)
        <==> !(FindRa(g.ras, rai) == |g.ras| && FindLai(g.ras, rai.lai, id) < |g.ras|)
  {
    hide RasOk, CellReset, Lookup, FindRa, FindLai, FindCell;
    var h := CellReset(g, nsei, bvci, rai, id).0;
    var o := FindLai(g.ras, rai.lai, id);
    ResetLookup(g, nsei, bvci, rai, id, rai, id);
    if FindRa(g.ras, rai) == |g.ras| && o < |g.ras| {
      FoundInLai(g, rai.lai, id);
      ResetLookup(g, nsei, bvci, rai, id, g.ras[o].rai, id);
    } else {
      forall r: Rai, q: Rai, x: int | r.lai == q.lai && Lookup(h.ras, r, x).Link? && Lookup(h.ras, q, x).Link? ensures r == q {
        ResetLookup(g, nsei, bvci, rai, id, r, x);
        ResetLookup(g, nsei, bvci, rai, id, q, x);
        if r == rai && x == id { ResetAlone(g, nsei, bvci, rai, id, q); }
        if q == rai && x == id { ResetAlone(g, nsei, bvci, rai, id, r); }
      }
    }
  }

  /** After such a reset no other area of the location area has the cell. */
  lemma ResetAlone(g: Registry, nsei: int, bvci: int, rai: Rai, id: int, q: Rai)
    requires Inv(g) && Unique(g.ras) && q.lai == rai.lai
    requires !(FindRa(g.ras, rai) == |g.ras| && FindLai(g.ras, rai.lai, id) < |g.ras|)
    requires var (h, rc) := CellReset(g, nsei, bvci, rai, id); Lookup(h.ras, q, id).Link? && Lookup(h.ras, rai, id).Link?
    ensures q == rai
  {
    hide RasOk, CellReset, Lookup, FindRa, FindLai, FindCell, Moves;
    ResetLookup(g, nsei, bvci, rai, id, q, id);
    if q != rai {
      var (h, rc) := CellReset(g, nsei, bvci, rai, id);
      assert rc.Clash? ==> h == g;
      assert rc.Done? ==> Lookup(h.ras, q, id) == ResetPlace(g.ras, nsei, bvci, rai, id, q, id);
      assert Lookup(h.ras, q, id).Link?;
      assert Lookup(g.ras, q, id).Link?;
      FoundByLai(g.ras, q, id);
      FoundInLai(g, rai.lai, id);
      if !Moves(g.ras, rai, id) { FoundHere(g, rai, id); }
    }
  }

  /** No move is due: the area is a UTRAN one, or it has the cell. */
  lemma FoundHere(g: Registry, rai: Rai, id: int)
    requires !Moves(g.ras, rai, id) && FindRa(g.ras, rai) < |g.ras| && FindLai(g.ras, rai.lai, id) < |g.ras|
    ensures g.ras[FindRa(g.ras, rai)].ran.Utran? || Lookup(g.ras, rai, id).Link?
  {
  }

  /** The event makes a new routing area for a cell that its location area has elsewhere. */
  predicate Splits(ras: seq<Ra>, e: Event) {
    e.Reset? && FindRa(ras, e.rai) == |ras| && FindLai(ras, e.rai.lai, e.id) < |ras|
  }

  lemma StepUniqueIff(g: Registry, e: Event)
    requires Inv(g) && Unique(g.ras)
    ensures Unique(Step(g, e).ras) <==> !Splits(g.ras, e)
  {
    hide RasOk, CellReset, Lookup, FindRa, FindLai, NseiFailure, UtranRegister;
    var h := Step(g, e);
    match e
    case Reset(nsei, bvci, rai, id) => ResetUniqueIff(g, nsei, bvci, rai, id);
    case _ =>
      forall r: Rai, q: Rai, x: int | r.lai == q.lai && Lookup(h.ras, r, x).Link? && Lookup(h.ras, q, x).Link? ensures r == q {
        NoneAppears(g, e, r, x);
        NoneAppears(g, e, q, x);
      }
  }

  lemma NoneAppears(g: Registry, e: Event, r: Rai, x: int)
    requires Inv(g) && !e.Reset? && Lookup(Step(g, e).ras, r, x).Link?
    ensures Lookup(g.ras, r, x).Link?
  {
    hide RasOk, Lookup, NseiFailure, UtranRegister;
    match e
    case Failure(nsei) => FailureLookup(g.ras, g.next, nsei, r, x);
    case Register(rai, rnc) => UtranRegisterOk(g, rai, rnc, r, x);
  }

  /** Over a whole run: cell identities stay unique in their location areas throughout exactly if no event splits. */
  lemma {:induction false} UniqueEveryRun(events: seq<Event>)
    ensures (forall k: nat :: k <= |events| ==> Unique(Run(events[..k]).ras))
       <==> forall k: nat :: k < |events| ==> !Splits(Run(events[..k]).ras, events[k])
    decreases |events|
  {
    hide Step, Unique, Splits, RasOk;
    if events == [] {
      assert Unique(Run([]).ras) by { NothingTwice(); }
      assert forall k: nat :: k <= 0 ==> events[..k] == [];
    } else {
      var n := |events| - 1;
      var init := events[..n];
      assert forall k: nat :: k <= n ==> init[..k] == events[..k];
      assert forall k: nat :: k < n ==> init[k] == events[k];
      UniqueEveryRun(init);
      EveryRun(init, Rai(0, 0), 0);
      assert events[..n + 1] == events && events[..n] == init;
      assert Run(events) == Step(Run(init), events[n]);
      if Unique(Run(init).ras) { StepUniqueIff(Run(init), events[n]); }
    }
  }

  lemma NothingTwice()
    ensures Unique(Run([]).ras)
  {
  }

  /** Two areas of one location area bring it about from the empty registry: the second reset with the cell of the first. */
  lemma SplitHappens(nsei: int, bvci: int, a: Rai, b: Rai, id: int)
    requires a != b && a.lai == b.lai
    ensures var first := Reset(nsei, bvci, a, id);
      Unique(Run([first]).ras) && !Unique(Run([first, Reset(nsei, bvci, b, id)]).ras)
  {
    hide Unique;
    var first, second := Reset(nsei, bvci, a, id), Reset(nsei, bvci, b, id);
    RunTwo(first, second);
    var g := Run([first]);
    EmptyOk();
    assert Unique([]) by { NothingTwice(); }
    StepOk(Registry([], 0), first);
    StepUniqueIff(Registry([], 0), first);
    OneArea(g.ras, a, b, id);
    StepUniqueIff(g, second);
  }

  lemma RunTwo(e: Event, f: Event)
    ensures Run([e]) == Step(Registry([], 0), e) && Run([e, f]) == Step(Run([e]), f)
  {
    hide Step;
    assert [e, f][..1] == [e] && [e][..0] == [];
    assert Run([]) == Registry([], 0);
  }

  lemma OneArea(ras: seq<Ra>, a: Rai, b: Rai, id: int)
    requires |ras| == 1 && ras[0].rai == a && ras[0].ran.Geran? && a != b && a.lai == b.lai
    requires |ras[0].cells| == 1 && ras[0].cells[0].ran.Geran? && ras[0].cells[0].id == id
    ensures FindRa(ras, b) == |ras| && FindLai(ras, b.lai, id) == 0
  {
    assert ras[1..] == [];
    assert Holds(ras[0], a.lai, id);
  }

  // ---- The registry in place ----

  lemma {:induction false} OthersJoin(a: seq<Cell>, b: seq<Cell>, nsei: int)
    ensures Others(a + b, nsei) == Others(a, nsei) + Others(b, nsei)
    decreases |a|
  {
    if a == [] {
      assert a + b == b;
    } else {
      hide Others;
      assert (a + b)[1..] == a[1..] + b;
      OthersCons(a + b, nsei);
      OthersCons(a, nsei);
      OthersJoin(a[1..], b, nsei);
    }
  }

  lemma {:induction false} FailureJoin(a: seq<Ra>, b: seq<Ra>, nsei: int)
    ensures NseiFailure(a + b, nsei) == NseiFailure(a, nsei) + NseiFailure(b, nsei)
    decreases |a|
  {
    if a == [] {
      assert a + b == b;
    } else {
      assert (a + b)[1..] == a[1..] + b;
      FailureJoin(a[1..], b, nsei);
    }
  }

  /** Taking one more cell of the list. */
  lemma OthersNext(cells: seq<Cell>, k: nat, nsei: int)
    requires k < |cells|
    ensures Others(cells[..k + 1], nsei)
         == Others(cells[..k], nsei) + (if cells[k].ran.Geran? && cells[k].nsei == nsei then [] else [cells[k]])
  {
    assert cells[..k + 1] == cells[..k] + [cells[k]];
    OthersJoin(cells[..k], [cells[k]], nsei);
  }

  lemma FailureNext(ras: seq<Ra>, k: nat, nsei: int)
    requires k < |ras|
    ensures NseiFailure(ras[..k + 1], nsei) == NseiFailure(ras[..k], nsei) + Surviving(ras[k], nsei)
  {
    assert ras[..k + 1] == ras[..k] + [ras[k]];
    FailureJoin(ras[..k], [ras[k]], nsei);
    assert [ras[k]][1..] == [];
  }

  /** What the failure leaves of an area. */
  function Surviving(r: Ra, nsei: int): seq<Ra> {
    if r.ran.Utran? then [r]
    else
      var left := Others(r.cells, nsei);
      if left == [] then [] else [r.(cells := left)]
  }

  predicate AnyOnLink(cells: seq<Cell>, nsei: int) {
    exists j | 0 <= j < |cells| :: cells[j].ran.Geran? && cells[j].nsei == nsei
  }

  /** A cell of the link is among the cells of some area. */
  predicate OnLink(ras: seq<Ra>, nsei: int) {
    exists i, j | 0 <= i < |ras| && 0 <= j < |ras[i].cells| ::
      ras[i].ran.Geran? && ras[i].cells[j].ran.Geran? && ras[i].cells[j].nsei == nsei
  }

  lemma NothingLeft(nsei: int)
    ensures NseiFailure([], nsei) == [] && !OnLink([], nsei)
  {
  }

  class RaRegistry {
    var ras: seq<Ra>
    var next: nat

    constructor ()
      ensures ras == [] && next == 0
    {
      ras, next := [], 0;
    }

    /** sgsn_ra_get_ra. */
    method GetRa(rai: Rai) returns (i: nat)
      ensures i == FindRa(ras, rai)
    {
      i := 0;
      while i < |ras| && ras[i].rai != rai
        invariant i <= |ras| && forall k :: 0 <= k < i ==> ras[k].rai != rai
      {
        i := i + 1;
      }
    }

    /** sgsn_ra_geran_get_cell_by_ra. */
    method GetCellByRa(r: Ra, id: int) returns (j: nat)
      ensures j == FindCell(r.cells, id)
    {
      j := 0;
      while j < |r.cells| && !(r.cells[j].ran.Geran? && r.cells[j].id == id)
        invariant j <= |r.cells| && forall k :: 0 <= k < j ==> !(r.cells[k].ran.Geran? && r.cells[k].id == id)
      {
        j := j + 1;
      }
    }

    /** sgsn_ra_geran_get_cell_by_lai. */
    method GetCellByLai(lai: int, id: int) returns (i: nat, j: nat)
      ensures i == FindLai(ras, lai, id) && (i < |ras| ==> j == FindCell(ras[i].cells, id))
    {
      i, j := 0, 0;
      while i < |ras|
        invariant i <= |ras| && forall k :: 0 <= k < i ==> !Holds(ras[k], lai, id)
      {
        if ras[i].ran.Geran? && ras[i].rai.lai == lai {
          j := GetCellByRa(ras[i], id);
          if j < |ras[i].cells| { return; }
        }
        i := i + 1;
      }
    }

    /** _sgsn_ra_cell_free, dropping an area left empty. */
    method FreeCell(i: nat, j: nat)
      requires i < |ras| && j < |ras[i].cells|
      modifies this`ras
      ensures ras == DropCell(old(ras), i, j)
      ensures RasOk(old(ras), next) ==> RasOk(ras, next)
      ensures RasOk(old(ras), next) ==>
        (forall rai, id :: Lookup(ras, rai, id) ==
          if rai == old(ras)[i].rai && id == old(ras)[i].cells[j].id then Nowhere else Lookup(old(ras), rai, id))
    {
      hide RasOk, Lookup;
      if RasOk(ras, next) {
        DropCellOk(ras, next, i, j);
        forall rai, id { LookupDrop(ras, next, i, j, rai, id); }
      }
      ras := ras[i := ras[i].(cells := Cut(ras[i].cells, j))];
      if ras[i].cells == [] { ras := Cut(ras, i); }
    }

    /** sgsn_ra_geran_bvc_cell_reset_ind. The area is known by its address, so it is the one found first that gets the
        new cell; the assertion is the one of the source. */
    method CellResetInd(nsei: int, bvci: int, rai: Rai, id: int) returns (rc: Outcome)
      requires Inv(Registry(ras, next))
      modifies this
      ensures (Registry(ras, next), rc) == CellReset(old(Registry(ras, next)), nsei, bvci, rai, id)
      ensures Inv(Registry(ras, next))
    {
      hide RasOk, FindCell, FindLai;
      CellResetOk(Registry(ras, next), nsei, bvci, rai, id);
      var i := GetRa(rai);
      rc := Done;
      if i == |ras| {
        ras := [Ra(next, rai, Geran, 0, [Cell(next, Geran, id, nsei, bvci)])] + ras;
        next := next + 1;
        return;
      }
      if ras[i].ran.Utran? { return Clash; }
      var j := GetCellByRa(ras[i], id);
      if j < |ras[i].cells| {
        ras := MoveLink(ras, i, j, nsei, bvci);
        return;
      }
      var o, d := GetCellByLai(rai.lai, id);
      if o < |ras| {
        AssertionHolds(Registry(ras, next), rai, id);
        TargetStays(Registry(ras, next), rai, id);
        assert ras[o].cells[d].ra != ras[i].key;
        FreeCell(o, d);
        i := GetRa(rai);
      }
      ras := AddCell(ras, i, id, nsei, bvci);
    }

    /** sgsn_ra_geran_nsei_failure_ind: the cells are unlinked as the lists are walked. */
    method NseiFailureInd(nsei: int) returns (found: bool)
      modifies this`ras
      ensures ras == NseiFailure(old(ras), nsei)
      ensures found <==> OnLink(old(ras), nsei)
    {
      hide NseiFailure, OnLink, AnyOnLink, Others;
      ghost var was, k := ras, 0;
      var i := 0;
      found := false;
      NothingLeft(nsei);
      while i < |ras|
        invariant i <= |ras| && k <= |was| && ras[i..] == was[k..] && ras[..i] == NseiFailure(was[..k], nsei)
        invariant found <==> OnLink(was[..k], nsei)
        decreases |ras| - i
      {
        FailureNext(was, k, nsei);
        assert ras[i] == ras[i..][0] == was[k] && ras[i + 1..] == ras[i..][1..] == was[k..][1..] == was[k + 1..];
        OnLinkNext(was, k, nsei);
        if ras[i].ran.Utran? {
          i, k := i + 1, k + 1;
          continue;
        }
        var left, some := RemoveLink(ras[i].cells, nsei);
        found := found || some;
        ras := ras[i := ras[i].(cells := left)];
        if left == [] { ras := Cut(ras, i); } else { i := i + 1; }
        k := k + 1;
      }
      assert was[..k] == was;
    }

    /** The walk over the cells of one area. */
    static method RemoveLink(cells: seq<Cell>, nsei: int) returns (left: seq<Cell>, some: bool)
      ensures left == Others(cells, nsei)
      ensures some <==> AnyOnLink(cells, nsei)
    {
      left, some := cells, false;
      var j := 0;
      ghost var k := 0;
      while j < |left|
        invariant j <= |left| && k <= |cells| && left[j..] == cells[k..] && left[..j] == Others(cells[..k], nsei)
        invariant some <==> exists m | 0 <= m < k :: cells[m].ran.Geran? && cells[m].nsei == nsei
        decreases |left| - j
      {
        OthersNext(cells, k, nsei);
        assert left[j] == left[j..][0] == cells[k] && left[j + 1..] == left[j..][1..] == cells[k..][1..] == cells[k + 1..];
        if left[j].ran.Geran? && left[j].nsei == nsei {
          some := true;
          left := Cut(left, j);
        } else {
          j := j + 1;
        }
        k := k + 1;
      }
      assert cells[..k] == cells;
    }

    /** sgsn_ra_utran_register. */
    method UtranRegisterInd(rai: Rai, rnc: int) returns (rc: Outcome)
      modifies this
      ensures (Registry(ras, next), rc) == UtranRegister(old(Registry(ras, next)), rai, rnc)
      ensures old(Inv(Registry(ras, next))) ==>
        && Inv(Registry(ras, next))
        && (rc.Done? ==> exists k :: 0 <= k < |ras| && ras[k].rai == rai && ras[k].ran.Utran? && ras[k].rnc == rnc)
        && (rc.Clash? ==> ras == old(ras) && exists k :: 0 <= k < |ras| && ras[k].rai == rai && ras[k].ran.Geran?)
        && forall r, x :: Lookup(ras, r, x) == Lookup(old(ras), r, x)
    {
      hide Inv, Lookup;
      if Inv(Registry(ras, next)) {
        forall r, x { UtranRegisterOk(Registry(ras, next), rai, rnc, r, x); }
        UtranRegisterOk(Registry(ras, next), rai, rnc, rai, 0);
      }
      var i := GetRa(rai);
      rc := Done;
      if i == |ras| {
        ras := [Ra(next, rai, Utran, rnc, [])] + ras;
        next := next + 1;
      } else if ras[i].ran.Geran? {
        rc := Clash;
      } else if ras[i].rnc != rnc {
        ras := ras[i := ras[i].(rnc := rnc)];
      } else {
        assert ras[i := ras[i].(rnc := rnc)] == ras;
      }
    }
  }

  lemma OnLinkNext(ras: seq<Ra>, k: nat, nsei: int)
    requires k < |ras|
    ensures OnLink(ras[..k + 1], nsei) <==> OnLink(ras[..k], nsei) || (ras[k].ran.Geran? && AnyOnLink(ras[k].cells, nsei))
  {
    var a, b := ras[..k], ras[..k + 1];
    if OnLink(b, nsei) {
      var i, j :| 0 <= i < |b| && 0 <= j < |b[i].cells|
        && b[i].ran.Geran? && b[i].cells[j].ran.Geran? && b[i].cells[j].nsei == nsei;
      if i < k { assert a[i].cells[j].nsei == nsei; }
    }
    if OnLink(a, nsei) {
      var i, j :| 0 <= i < |a| && 0 <= j < |a[i].cells|
        && a[i].ran.Geran? && a[i].cells[j].ran.Geran? && a[i].cells[j].nsei == nsei;
      assert b[i].cells[j].nsei == nsei;
    }
    if ras[k].ran.Geran? && AnyOnLink(ras[k].cells, nsei) {
      var j :| 0 <= j < |ras[k].cells| && ras[k].cells[j].ran.Geran? && ras[k].cells[j].nsei == nsei;
      assert b[k].cells[j].nsei == nsei;
    }
  }
}
