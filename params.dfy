/** The parameter tables the protocols are driven by, and the lookups shared
    by both versions of the cloning protocol: reaction tables, plates with
    their loaded labware, the 96-well ordering, and the first-match search
    that turns a material name into a well. */
module Params {
  import opened Robot

  /** The exceptions the protocols raise. */
  datatype Fault = KeyError | ValueError | IndexError | TypeError | AssertionError | StopIteration | AttributeError | NameError

  /** A computation that returns a value or raises. */
  datatype Outcome<T> = Done(value: T) | Failed(fault: Fault)

  /** What `find_materials_well` gives back: a well, Python's None, or an
      exception. */
  datatype Lookup = Found(well: Well) | NotFound | Raised(fault: Fault)

  // ---------------------------------------------------------------------
  // Reaction tables

  /** A reaction table as the protocols build it with pandas: the column
      names in order, and one map per row. A cell that is absent, NaN or ""
      reads as "" (empty). */
  datatype Table = Table(columns: seq<string>, rows: seq<map<string, string>>)

  function Cell(row: map<string, string>, column: string): string
  {
    if column in row then row[column] else ""
  }

  /** The cells of one column, in row order. */
  function ColumnValues(rows: seq<map<string, string>>, column: string): (vs: seq<string>)
    ensures |vs| == |rows|
    ensures forall i :: 0 <= i < |rows| ==> vs[i] == Cell(rows[i], column)
  {
    seq(|rows|, i requires 0 <= i < |rows| => Cell(rows[i], column))
  }

  /** pandas' `unique()`: every value once, in order of first occurrence. */
  function Unique<T(==)>(s: seq<T>): seq<T>
  {
    if s == [] then []
    else
      var u := Unique(s[..|s| - 1]);
      if s[|s| - 1] in u then u else u + [s[|s| - 1]]
  }

  /** `unique()` keeps every value, repeats none, and lists them in the
      order in which they first occur. */
  lemma {:induction false} UniqueSpec<T>(s: seq<T>)
    ensures forall x :: x in Unique(s) <==> x in s
    ensures forall i, j :: 0 <= i < j < |Unique(s)| ==> Unique(s)[i] != Unique(s)[j]
    ensures forall i, j :: 0 <= i < j < |Unique(s)| ==> IndexOf(s, Unique(s)[i]) < IndexOf(s, Unique(s)[j])
  {
    if s != [] {
      var init, x := s[..|s| - 1], s[|s| - 1];
      UniqueSpec(init);
      assert s == init + [x];
      assert forall y :: y in s <==> y in init || y == x;
      forall y | y in init
        ensures IndexOf(s, y) == IndexOf(init, y)
      {
        IndexOfAppend(init, [x], y);
      }
    }
  }

  /** What follows a sequence does not move the first index of a value in it. */
  lemma {:induction false} IndexOfAppend<T>(s: seq<T>, t: seq<T>, x: T)
    requires x in s
    ensures IndexOf(s + t, x) == IndexOf(s, x)
  {
    if s[0] != x {
      assert (s + t)[1..] == s[1..] + t;
      IndexOfAppend(s[1..], t, x);
    }
  }

  /** The indices of the rows whose `column` cell equals `v`, in row order:
      `df[df[column] == v]`. */
  function RowsCarrying(rows: seq<map<string, string>>, column: string, v: string): (idx: seq<nat>)
    ensures forall k :: 0 <= k < |idx| ==> idx[k] < |rows|
  {
    if rows == [] then []
    else
      var idx := RowsCarrying(rows[..|rows| - 1], column, v);
      if Cell(rows[|rows| - 1], column) == v then idx + [|rows| - 1] else idx
  }

  /** `df[df[column] == v]` selects exactly the rows whose cell is `v`, each
      once, in row order. */
  lemma {:induction false} RowsCarryingSpec(rows: seq<map<string, string>>, column: string, v: string)
    ensures forall k :: 0 <= k < |RowsCarrying(rows, column, v)| ==>
      Cell(rows[RowsCarrying(rows, column, v)[k]], column) == v
    ensures forall i :: 0 <= i < |rows| && Cell(rows[i], column) == v ==> i in RowsCarrying(rows, column, v)
    ensures forall k, l :: 0 <= k < l < |RowsCarrying(rows, column, v)| ==>
      RowsCarrying(rows, column, v)[k] < RowsCarrying(rows, column, v)[l]
  {
    if rows != [] {
      var pre := rows[..|rows| - 1];
      RowsCarryingSpec(pre, column, v);
      assert forall i :: 0 <= i < |rows| - 1 ==> pre[i] == rows[i];
    }
  }

  predicate StartsWith(s: string, prefix: string)
  {
    |prefix| <= |s| && s[..|prefix|] == prefix
  }

  predicate IsDigit(c: char)
  {
    '0' <= c <= '9'
  }

  /** `re.sub(r"[0-9]+", "", s)`: every run of digits deleted. */
  function StripDigits(s: string): (r: string)
    ensures forall i :: 0 <= i < |r| ==> !IsDigit(r[i])
    ensures forall c :: c in s && !IsDigit(c) ==> c in r
    ensures forall c :: c in r ==> c in s
    ensures |r| <= |s|
  {
    if s == [] then ""
    else
      var r := StripDigits(s[..|s| - 1]);
      assert forall c :: c in s <==> c in s[..|s| - 1] || c == s[|s| - 1];
      if IsDigit(s[|s| - 1]) then r else r + [s[|s| - 1]]
  }

  /** A single character is kept exactly when it is not a digit. */
  lemma StripDigitsChar(c: char)
    ensures StripDigits([c]) == if IsDigit(c) then [] else [c]
  {
    assert [c][..0] == [];
  }

  /** Stripping works character by character: the characters kept from a
      concatenation are those kept from each part, in order. With
      `StripDigitsChar` this fixes the result on every string. */
  lemma {:induction false} StripDigitsAppend(a: string, b: string)
    ensures StripDigits(a + b) == StripDigits(a) + StripDigits(b)
    decreases |b|
  {
    if b == [] {
      assert a + b == a;
    } else {
      var init, c := b[..|b| - 1], b[|b| - 1];
      assert a + b == (a + init) + [c] && b == init + [c];
      StripDigitsAppend(a, init);
      StripDigitsSnoc(a + init, c);
      StripDigitsSnoc(init, c);
    }
  }

  /** One more character at the end is kept unless it is a digit. */
  lemma StripDigitsSnoc(s: string, c: char)
    ensures StripDigits(s + [c]) == if IsDigit(c) then StripDigits(s) else StripDigits(s) + [c]
  {
    assert (s + [c])[..|s|] == s;
  }

  /** A column name made of a type and a number, such as "Enzyme2", strips
      to the type alone. */
  lemma {:induction false} StripTrailingNumber(name: string, number: string)
    requires forall i :: 0 <= i < |name| ==> !IsDigit(name[i])
    requires forall i :: 0 <= i < |number| ==> IsDigit(number[i])
    ensures StripDigits(name + number) == name
  {
    if number == [] {
      assert name + number == name;
      StripNoDigits(name);
    } else {
      var s := name + number;
      assert s[..|s| - 1] == name + number[..|number| - 1];
      StripTrailingNumber(name, number[..|number| - 1]);
    }
  }

  lemma {:induction false} StripNoDigits(s: string)
    requires forall i :: 0 <= i < |s| ==> !IsDigit(s[i])
    ensures StripDigits(s) == s
  {
    if s != [] {
      StripNoDigits(s[..|s| - 1]);
      assert s[..|s| - 1] + [s[|s| - 1]] == s;
    }
  }

  /** Stripping twice strips nothing more. */
  lemma StripDigitsIdempotent(s: string)
    ensures StripDigits(StripDigits(s)) == StripDigits(s)
  {
    StripNoDigits(StripDigits(s));
  }

  // ---------------------------------------------------------------------
  // Plates and the 96-well ordering

  /** A plate of the parameter table after its labware has been loaded:
      `data` maps wells to contents in the table's order, `wells` is the
      labware's `wells_by_name()` order. The plate's key names its labware. */
  datatype Plate = Plate(key: string, kind: string, data: seq<(string, string)>, wells: seq<string>)

  /** Where the enzyme tubes are and which plates are on the deck. */
  datatype Deck = Deck(enzymes: map<string, Well>, plates: seq<Plate>)

  function Digit(d: nat): char
    requires d < 10
  {
    "0123456789"[d]
  }

  /** The label of column `c` of a 96-well plate: "1" ... "12". */
  function ColumnLabel(c: nat): string
    requires 1 <= c <= 12
  {
    if c < 10 then [Digit(c)] else ['1', Digit(c - 10)]
  }

  /** The well in row `r` (0 is "A") and column `c` (1 ... 12). */
  function WellName(r: nat, c: nat): string
    requires r < 8 && 1 <= c <= 12
  {
    ["ABCDEFGH"[r]] + ColumnLabel(c)
  }

  /** The 96 wells in the library's order: down each column, A1 ... H1, A2 ... */
  function StandardWells(): (ws: seq<string>)
    ensures |ws| == 96
  {
    seq(96, i requires 0 <= i < 96 => WellName(i % 8, i / 8 + 1))
  }

  lemma WellNameInjective(r: nat, c: nat, r': nat, c': nat)
    requires r < 8 && 1 <= c <= 12 && r' < 8 && 1 <= c' <= 12
    requires WellName(r, c) == WellName(r', c')
    ensures r == r' && c == c'
  {
    assert WellName(r, c)[0] == "ABCDEFGH"[r];
    assert WellName(r', c')[0] == "ABCDEFGH"[r'];
    assert ColumnLabel(c) == WellName(r, c)[1..];
    assert ColumnLabel(c') == WellName(r', c')[1..];
  }

  /** The first index of `x` in `s` (`list.index`). */
  function IndexOf<T(==)>(s: seq<T>, x: T): (i: nat)
    requires x in s
    ensures i < |s| && s[i] == x
    ensures forall j :: 0 <= j < i ==> s[j] != x
  {
    if s[0] == x then 0 else 1 + IndexOf(s[1..], x)
  }

  /** `wells[well]`, or with `right` the well eight places later in the
      labware's order, for a well the plate's data names. */
  function WellOf(p: Plate, well: string, right: bool): (r: Lookup)
    ensures !r.NotFound?
    ensures r.Found? ==> r.well.labware == p.key && r.well.name in p.wells
    ensures r.Found? && !right ==> r.well.name == well
  {
    if well !in p.wells then (if right then Raised(ValueError) else Raised(KeyError))
    else if !right then Found(Well(p.key, well))
    else
      var pos := IndexOf(p.wells, well);
      if pos + 8 < |p.wells| then Found(Well(p.key, p.wells[pos + 8])) else Raised(IndexError)
  }

  /** On a standard 96-well plate the well eight places later is the well
      in the same row one column to the right; there is none right of
      column 12. */
  lemma RightWellIsNextColumn(key: string, kind: string, data: seq<(string, string)>, r: nat, c: nat)
    requires r < 8 && 1 <= c <= 12
    ensures c < 12 ==> WellOf(Plate(key, kind, data, StandardWells()), WellName(r, c), true)
                       == Found(Well(key, WellName(r, c + 1)))
    ensures c == 12 ==> WellOf(Plate(key, kind, data, StandardWells()), WellName(r, c), true)
                        == Raised(IndexError)
  {
    var i := StandardPosition(r, c);
    if c < 12 {
      NextColumnPosition(r, c);
    }
  }

  /** A well's place in the standard order: eight per column before its
      own, then its row. */
  lemma StandardPosition(r: nat, c: nat) returns (i: nat)
    requires r < 8 && 1 <= c <= 12
    ensures i == (c - 1) * 8 + r
    ensures WellName(r, c) in StandardWells() && IndexOf(StandardWells(), WellName(r, c)) == i
  {
    var ws := StandardWells();
    i := (c - 1) * 8 + r;
    assert i % 8 == r && i / 8 + 1 == c;
    assert ws[i] == WellName(r, c);
    var pos := IndexOf(ws, WellName(r, c));
    WellNameInjective(pos % 8, pos / 8 + 1, r, c);
  }

  /** Eight places after a well of columns 1 to 11 comes the well of the
      same row in the next column. */
  lemma NextColumnPosition(r: nat, c: nat)
    requires r < 8 && 1 <= c < 12
    ensures StandardWells()[(c - 1) * 8 + r + 8] == WellName(r, c + 1)
  {
    var i := (c - 1) * 8 + r + 8;
    assert i % 8 == r && i / 8 + 1 == c + 1;
  }

  /** The first entry of a plate's data whose content is `material`. */
  function FirstEntry(data: seq<(string, string)>, material: string): (r: Option<nat>)
    ensures r.None? <==> forall j :: 0 <= j < |data| ==> data[j].1 != material
    ensures r.Some? ==> r.value < |data| && data[r.value].1 == material
    ensures r.Some? ==> forall j :: 0 <= j < r.value ==> data[j].1 != material
  {
    if data == [] then None
    else if data[0].1 == material then Some(0)
    else
      match FirstEntry(data[1..], material)
      case None => None
      case Some(k) => Some(k + 1)
  }

  /** Entry `j` of plate `i` is the first one, in plate order and then in
      the plate's own order, whose content is `material`. */
  ghost predicate FirstMatch(plates: seq<Plate>, material: string, i: int, j: int)
  {
    && 0 <= i < |plates| && 0 <= j < |plates[i].data|
    && plates[i].data[j].1 == material
    && (forall j' :: 0 <= j' < j ==> plates[i].data[j'].1 != material)
    && (forall i', j' :: 0 <= i' < i && 0 <= j' < |plates[i'].data| ==> plates[i'].data[j'].1 != material)
  }

  /** The plate search of `find_materials_well`: the first well holding
      `material`, in plate order then well order; None when no plate holds it. */
  function SearchPlates(plates: seq<Plate>, material: string, right: bool): (r: Lookup)
    ensures r.NotFound? <==>
      forall i, j :: 0 <= i < |plates| && 0 <= j < |plates[i].data| ==> plates[i].data[j].1 != material
    ensures !r.NotFound? ==>
      exists i, j :: FirstMatch(plates, material, i, j) && r == WellOf(plates[i], plates[i].data[j].0, right)
  {
    if plates == [] then NotFound
    else
      match FirstEntry(plates[0].data, material)
      case Some(j) =>
        assert FirstMatch(plates, material, 0, j);
        WellOf(plates[0], plates[0].data[j].0, right)
      case None =>
        var r := SearchPlates(plates[1..], material, right);
        NoMatchInFirst(plates, material);
        if r.NotFound? then r
        else
          ghost var i, j :| FirstMatch(plates[1..], material, i, j) && r == WellOf(plates[1..][i], plates[1..][i].data[j].0, right);
          FirstMatchShift(plates, material, i, j);
          r
  }

  /** With no match on the first plate, the plates hold `material` exactly
      where the plates after it do. */
  lemma NoMatchInFirst(plates: seq<Plate>, material: string)
    requires plates != [] && forall j :: 0 <= j < |plates[0].data| ==> plates[0].data[j].1 != material
    ensures (forall i, j :: 0 <= i < |plates| && 0 <= j < |plates[i].data| ==> plates[i].data[j].1 != material)
      <==> (forall i, j :: 0 <= i < |plates[1..]| && 0 <= j < |plates[1..][i].data| ==> plates[1..][i].data[j].1 != material)
  {
    assert forall i :: 1 <= i < |plates| ==> plates[i] == plates[1..][i - 1];
  }

  /** With no match on the first plate, the first match after it is the
      first match of all. */
  lemma FirstMatchShift(plates: seq<Plate>, material: string, i: int, j: int)
    requires plates != [] && forall j :: 0 <= j < |plates[0].data| ==> plates[0].data[j].1 != material
    requires FirstMatch(plates[1..], material, i, j)
    ensures FirstMatch(plates, material, i + 1, j) && plates[i + 1] == plates[1..][i]
  {
    assert forall i :: 1 <= i < |plates| ==> plates[i] == plates[1..][i - 1];
  }
}
