/**
 * The asset-class table of utils.py and its queries: the form fields of the classes, the
 * symbols and display names of the selected classes in table order, and for a year the
 * classes whose data starts after it or ends before it.
 */
module AssetClasses {

  /** One row of the table: the class's symbol, the name of its form checkbox, its display
      name, and the first and last years of its data. */
  datatype AssetClass = AssetClass(symbol: string, field: string, name: string, start: int,
                                   end: int)

  /** The asset classes, in the order the forms and the results list them. */
  const Table: seq<AssetClass> := [
    AssetClass("stocks", "class_stocks", "stocks", 1872, 2013),
    AssetClass("bonds", "class_bonds", "bonds", 1872, 2013),
    AssetClass("eafe", "class_eafe", "international", 1970, 2013),
    AssetClass("bl", "class_ff_bl", "large growth", 1927, 2013),
    AssetClass("bm", "class_ff_bm", "large neutral", 1927, 2013),
    AssetClass("bh", "class_ff_bh", "large value", 1927, 2013),
    AssetClass("sl", "class_ff_sl", "small growth", 1927, 2013),
    AssetClass("sm", "class_ff_sm", "small neutral", 1927, 2013),
    AssetClass("sh", "class_ff_sh", "small value", 1927, 2013),
    AssetClass("equity_reits", "class_reits_e", "equity reits", 1972, 2013),
    AssetClass("mortgage_reits", "class_reits_m", "mortgage reits", 1972, 2013),
    AssetClass("baa", "class_baa", "baa long corp", 1920, 2013),
    AssetClass("aaa", "class_aaa", "aaa long corp", 1920, 2013),
    AssetClass("gs10", "class_t10yr", "t-note 10yr", 1872, 2013),
    AssetClass("gs1", "class_t1yr", "t-bill 1yr", 1954, 2013),
    AssetClass("cash", "class_t1mo", "t-bill 1mo", 1927, 2013),
    AssetClass("tips", "class_tips10yr", "tips 10yr", 1972, 2013),
    AssetClass("gold", "class_gold", "gold", 1872, 2013),
    AssetClass("risk_free", "class_risk_free", "risk free", 1872, 2013)
  ]

  /** The checkboxes of a form: each class field mapped to whether it is ticked. */
  type Selection = map<string, bool>

  /** A selection that has a value for every class field of `rows`, as a cleaned form does;
      looking up a missing field raises KeyError. */
  predicate Covers(s: Selection, rows: seq<AssetClass>) {
    forall i :: 0 <= i < |rows| ==> rows[i].field in s
  }

  /** all_asset_classes: the class fields in table order. */
  function Fields(rows: seq<AssetClass>): (r: seq<string>)
    ensures |r| == |rows|
    ensures forall i :: 0 <= i < |rows| ==> r[i] == rows[i].field
  {
    if |rows| == 0 then [] else Fields(rows[..|rows| - 1]) + [rows[|rows| - 1].field]
  }

  function AllAssetClasses(): (r: seq<string>)
    ensures |r| == 19
    ensures forall i :: 0 <= i < |Table| ==> r[i] == Table[i].field
  {
    Fields(Table)
  }

  /** The rows whose field is ticked, in the order of `rows`. */
  function Chosen(rows: seq<AssetClass>, s: Selection): (r: seq<AssetClass>)
    requires Covers(s, rows)
    ensures |r| <= |rows|
  {
    if |rows| == 0 then []
    else
      var last := rows[|rows| - 1];
      Chosen(rows[..|rows| - 1], s) + (if s[last.field] then [last] else [])
  }

  /** asset_class_symbols. */
  function Symbols(s: Selection): (r: seq<string>)
    requires Covers(s, Table)
    ensures |r| == |Chosen(Table, s)|
    ensures forall i :: 0 <= i < |r| ==> r[i] == Chosen(Table, s)[i].symbol
  {
    var chosen := Chosen(Table, s);
    seq(|chosen|, i requires 0 <= i < |chosen| => chosen[i].symbol)
  }

  /** asset_class_names. */
  function Names(s: Selection): (r: seq<string>)
    requires Covers(s, Table)
    ensures |r| == |Chosen(Table, s)|
    ensures forall i :: 0 <= i < |r| ==> r[i] == Chosen(Table, s)[i].name
  {
    var chosen := Chosen(Table, s);
    seq(|chosen|, i requires 0 <= i < |chosen| => chosen[i].name)
  }

  /** Which end of a class's data a year is checked against. */
  datatype Edge = Early | Late

  /** The flag of one class: ticked, and `year` before its data starts (Early) or after its
      data ends (Late). */
  function Flagged(row: AssetClass, s: Selection, year: int, edge: Edge): bool
    requires row.field in s
  {
    s[row.field] && (if edge == Early then year < row.start else year > row.end)
  }

  /** A dictionary over the class fields of `rows`, each mapped to its row's flag; a later
      row overwrites an earlier one with the same field, as a dict display does. */
  function Flags(rows: seq<AssetClass>, s: Selection, year: int, edge: Edge): (m: Selection)
    requires Covers(s, rows)
    ensures m.Keys == set i | 0 <= i < |rows| :: rows[i].field
  {
    if |rows| == 0 then map[]
    else
      var last := rows[|rows| - 1];
      var init := rows[..|rows| - 1];
      var m' := Flags(init, s, year, edge);
      assert m'.Keys + {last.field} == set i | 0 <= i < |rows| :: rows[i].field by {
        assert forall i :: 0 <= i < |init| ==> init[i] == rows[i];
      }
      m'[last.field := Flagged(last, s, year, edge)]
  }

  /** too_early_for_asset_classes. */
  function TooEarly(s: Selection, year: int): (m: Selection)
    requires Covers(s, Table)
  {
    Flags(Table, s, year, Early)
  }

  /** too_late_for_asset_classes. */
  function TooLate(s: Selection, year: int): (m: Selection)
    requires Covers(s, Table)
  {
    Flags(Table, s, year, Late)
  }

  /** The number of ticked classes, as the forms count them. */
  function CountSelected(rows: seq<AssetClass>, s: Selection): (n: nat)
    requires Covers(s, rows)
  {
    if |rows| == 0 then 0
    else CountSelected(rows[..|rows| - 1], s) + (if s[rows[|rows| - 1].field] then 1 else 0)
  }

  // ---------------------------------------------------------------------------------------
  // Properties of the table.

  /** No two rows share a form field. */
  lemma FieldsDistinct()
    ensures forall i, j :: 0 <= i < j < |Table| ==> Table[i].field != Table[j].field
  {
  }

  /** Every class's data starts no later than it ends. */
  lemma StartsBeforeEnds()
    ensures forall i :: 0 <= i < |Table| ==> Table[i].start <= Table[i].end
  {
  }

  // ---------------------------------------------------------------------------------------
  // Properties of the queries.

  /** Filtering keeps table order: the classes chosen from two runs of rows are those chosen
      from the first followed by those chosen from the second. */
  lemma {:induction false} ChosenAppend(a: seq<AssetClass>, b: seq<AssetClass>, s: Selection)
    requires Covers(s, a) && Covers(s, b)
    ensures Covers(s, a + b)
    ensures Chosen(a + b, s) == Chosen(a, s) + Chosen(b, s)
    decreases |b|
  {
    var ab := a + b;
    assert Covers(s, ab) by {
      assert forall i :: 0 <= i < |ab| ==> ab[i] in a || ab[i] in b;
    }
    if |b| == 0 {
      assert ab == a;
    } else {
      var init := b[..|b| - 1];
      assert Covers(s, init) by {
        assert forall i :: 0 <= i < |init| ==> init[i] == b[i];
      }
      ChosenAppend(a, init, s);
      assert ab[..|ab| - 1] == a + init;
      assert ab[|ab| - 1] == b[|b| - 1];
    }
  }

  /** A class is chosen exactly when it is one of the rows and its box is ticked. */
  lemma {:induction false} ChosenMembers(rows: seq<AssetClass>, s: Selection, x: AssetClass)
    requires Covers(s, rows)
    ensures x in Chosen(rows, s) <==> x in rows && x.field in s && s[x.field]
    decreases |rows|
  {
    if |rows| > 0 {
      var init := rows[..|rows| - 1];
      assert Covers(s, init) by {
        assert forall i :: 0 <= i < |init| ==> init[i] == rows[i];
      }
      ChosenMembers(init, s, x);
      assert rows == init + [rows[|rows| - 1]];
    }
  }

  /** The number of ticked classes is the number chosen, so the symbols and the names of a
      selection are as many as its ticked boxes. */
  lemma {:induction false} CountIsChosen(rows: seq<AssetClass>, s: Selection)
    requires Covers(s, rows)
    ensures CountSelected(rows, s) == |Chosen(rows, s)|
    decreases |rows|
  {
    if |rows| > 0 {
      var init := rows[..|rows| - 1];
      assert Covers(s, init) by {
        assert forall i :: 0 <= i < |init| ==> init[i] == rows[i];
      }
      CountIsChosen(init, s);
    }
  }

  /** Nothing is chosen exactly when no box of the rows is ticked. */
  lemma {:induction false} ChosenEmpty(rows: seq<AssetClass>, s: Selection)
    requires Covers(s, rows)
    ensures Chosen(rows, s) == [] <==> forall i :: 0 <= i < |rows| ==> !s[rows[i].field]
    decreases |rows|
  {
    if |rows| > 0 {
      var init := rows[..|rows| - 1];
      assert Covers(s, init) by {
        assert forall i :: 0 <= i < |init| ==> init[i] == rows[i];
      }
      ChosenEmpty(init, s);
      assert forall i :: 0 <= i < |init| ==> init[i] == rows[i];
    }
  }

  /** With distinct fields, each field of the dictionary holds its own row's flag. */
  lemma {:induction false} FlagsAt(rows: seq<AssetClass>, s: Selection, year: int, edge: Edge,
                                   i: int)
    requires Covers(s, rows)
    requires forall j, k :: 0 <= j < k < |rows| ==> rows[j].field != rows[k].field
    requires 0 <= i < |rows|
    ensures Flags(rows, s, year, edge)[rows[i].field] == Flagged(rows[i], s, year, edge)
    decreases |rows|
  {
    if i < |rows| - 1 {
      var init := rows[..|rows| - 1];
      assert forall j :: 0 <= j < |init| ==> init[j] == rows[j];
      assert rows[i].field != rows[|rows| - 1].field;
      FlagsAt(init, s, year, edge, i);
    }
  }

  /** Both dictionaries have every class field as a key, so the name and symbol queries
      accept them. */
  lemma FlagsCover(s: Selection, year: int, edge: Edge)
    requires Covers(s, Table)
    ensures Covers(Flags(Table, s, year, edge), Table)
  {
    var m := Flags(Table, s, year, edge);
    forall i | 0 <= i < |Table|
      ensures Table[i].field in m
    {
      assert Table[i].field in set j | 0 <= j < |Table| :: Table[j].field;
    }
  }

  /** too_early_for_asset_classes maps each class field to whether its box is ticked and the
      year is before the class's data starts; too_late_for_asset_classes to whether it is
      ticked and the year is after the data ends. */
  lemma FlagsOfTable(s: Selection, year: int, i: int)
    requires Covers(s, Table) && 0 <= i < |Table|
    ensures TooEarly(s, year).Keys == TooLate(s, year).Keys ==
            set j | 0 <= j < |Table| :: Table[j].field
    ensures TooEarly(s, year)[Table[i].field] == (s[Table[i].field] && year < Table[i].start)
    ensures TooLate(s, year)[Table[i].field] == (s[Table[i].field] && year > Table[i].end)
  {
    FieldsDistinct();
    FlagsAt(Table, s, year, Early, i);
    FlagsAt(Table, s, year, Late, i);
  }

  /** A year within a class's data is flagged by neither dictionary. */
  lemma InRangeNotFlagged(s: Selection, year: int, i: int)
    requires Covers(s, Table) && 0 <= i < |Table|
    requires Table[i].start <= year <= Table[i].end
    ensures !TooEarly(s, year)[Table[i].field] && !TooLate(s, year)[Table[i].field]
  {
    FlagsOfTable(s, year, i);
  }

  /** Each name the too-early message lists is that of a ticked class whose data starts
      after the year. */
  lemma NamesTooEarly(s: Selection, year: int, k: int)
    requires Covers(s, Table)
    ensures Covers(TooEarly(s, year), Table)
    ensures 0 <= k < |Names(TooEarly(s, year))| ==>
      exists i :: 0 <= i < |Table| && Names(TooEarly(s, year))[k] == Table[i].name &&
                  s[Table[i].field] && year < Table[i].start
  {
    FlagsCover(s, year, Early);
    if 0 <= k < |Names(TooEarly(s, year))| {
      var row := Chosen(Table, TooEarly(s, year))[k];
      ChosenMembers(Table, TooEarly(s, year), row);
      var i :| 0 <= i < |Table| && Table[i] == row;
      FlagsOfTable(s, year, i);
    }
  }

  /** Each name the too-late message lists is that of a ticked class whose data ends before
      the year. */
  lemma NamesTooLate(s: Selection, year: int, k: int)
    requires Covers(s, Table)
    ensures Covers(TooLate(s, year), Table)
    ensures 0 <= k < |Names(TooLate(s, year))| ==>
      exists i :: 0 <= i < |Table| && Names(TooLate(s, year))[k] == Table[i].name &&
                  s[Table[i].field] && year > Table[i].end
  {
    FlagsCover(s, year, Late);
    if 0 <= k < |Names(TooLate(s, year))| {
      var row := Chosen(Table, TooLate(s, year))[k];
      ChosenMembers(Table, TooLate(s, year), row);
      var i :| 0 <= i < |Table| && Table[i] == row;
      FlagsOfTable(s, year, i);
    }
  }

  /** Every ticked class has data from `year` on. */
  predicate StartedBy(s: Selection, year: int)
    requires Covers(s, Table)
  {
    forall i :: 0 <= i < |Table| && s[Table[i].field] ==> Table[i].start <= year
  }

  /** Every ticked class has data until `year`. */
  predicate LastsUntil(s: Selection, year: int)
    requires Covers(s, Table)
  {
    forall i :: 0 <= i < |Table| && s[Table[i].field] ==> year <= Table[i].end
  }

  /** No class is too early for a year exactly when every ticked class's data starts by
      then. */
  lemma EarlyNamesEmpty(s: Selection, year: int)
    requires Covers(s, Table)
    ensures Covers(TooEarly(s, year), Table)
    ensures Names(TooEarly(s, year)) == [] <==> StartedBy(s, year)
  {
    FlagsCover(s, year, Early);
    ChosenEmpty(Table, TooEarly(s, year));
    forall i | 0 <= i < |Table| {
      FlagsOfTable(s, year, i);
    }
  }

  /** No class is too late for a year exactly when every ticked class's data lasts until
      then. */
  lemma LateNamesEmpty(s: Selection, year: int)
    requires Covers(s, Table)
    ensures Covers(TooLate(s, year), Table)
    ensures Names(TooLate(s, year)) == [] <==> LastsUntil(s, year)
  {
    FlagsCover(s, year, Late);
    ChosenEmpty(Table, TooLate(s, year));
    forall i | 0 <= i < |Table| {
      FlagsOfTable(s, year, i);
    }
  }
}
