/**
 * The dataset catalog built once at start-up: the scraped documentation text is
 * cut into table rows, and each row assigns an integer dataset id to a display
 * name in an insertion-ordered dictionary.
 */
module Catalog {
  import opened Wrappers
  import opened Text
  import Keyboard

  /** What separates the table rows in the scraped text. */
  const RowDelimiter := "| . |"
  /** What separates the cells of one row. */
  const CellDelimiter := " | "

  /**
   * An insertion-ordered dictionary from dataset id to display name, as a Python
   * `dict`: `ids` lists the keys in the order they were first assigned.
   */
  datatype Catalog = Catalog(ids: seq<int>, names: map<int, string>)

  /** The keys are listed once each, and the listed keys are the mapped ones. */
  ghost predicate Valid(c: Catalog) {
    && (forall i, j :: 0 <= i < j < |c.ids| ==> c.ids[i] != c.ids[j])
    && (forall k :: k in c.names <==> k in c.ids)
  }

  /** `maps[k] = v`: an existing id keeps its position and gets the new name; a new id goes last. */
  function Assign(c: Catalog, k: int, v: string): (r: Catalog)
    requires Valid(c)
    ensures Valid(r)
    ensures r.names == c.names[k := v]
  {
    if k in c.names then Catalog(c.ids, c.names[k := v])
    else Catalog(c.ids + [k], c.names[k := v])
  }

  /** Why start-up stops while reading a row. */
  datatype CatalogError =
    | MissingName(row: string)   // the row has no second cell (an IndexError)
    | BadId(row: string)         // the first cell is not an integer (a ValueError)

  /**
   * The (id, name) pair one row contributes: the stripped first cell as an integer
   * and the stripped second cell. The name is looked up first, since Python
   * evaluates the right-hand side of `maps[...] = ...` before the key.
   */
  function ParseRow(row: string): Result<(int, string), CatalogError> {
    var cells := Split(row, CellDelimiter);
    if |cells| < 2 then Err(MissingName(row))
    else match ParseInt(Strip(cells[0]))
      case None => Err(BadId(row))
      case Some(k) => Ok((k, Strip(cells[1])))
  }

  /** The rows of the scraped text: everything after the first row delimiter, cut at each one. */
  function Rows(content: string): seq<string> {
    Split(content, RowDelimiter)[1..]
  }

  /** The values of `results` in order, or the first error among them: a loop that stops at the first raise. */
  function Collect<T, E>(results: seq<Result<T, E>>): Result<seq<T>, E> {
    if results == [] then Ok([])
    else
      var sofar := Collect(results[..|results| - 1]);
      var last := results[|results| - 1];
      if sofar.Err? then sofar
      else if last.Err? then Err(last.error)
      else Ok(sofar.value + [last.value])
  }

  /** Each row parsed on its own. */
  function ParsedRows(rows: seq<string>): (r: seq<Result<(int, string), CatalogError>>)
    ensures |r| == |rows|
    ensures forall i :: 0 <= i < |rows| ==> r[i] == ParseRow(rows[i])
  {
    seq(|rows|, i requires 0 <= i < |rows| => ParseRow(rows[i]))
  }

  /** The pairs contributed by `rows`, in order, or the error of the first row that fails. */
  function Entries(rows: seq<string>): Result<seq<(int, string)>, CatalogError> {
    Collect(ParsedRows(rows))
  }

  /** The dictionary that assigning `entries` one after the other produces. */
  function Build(entries: seq<(int, string)>): (c: Catalog)
    ensures Valid(c)
  {
    if entries == [] then Catalog([], map[])
    else
      var last := entries[|entries| - 1];
      Assign(Build(entries[..|entries| - 1]), last.0, last.1)
  }

  /** The catalog the start-up loop leaves behind, or the error that stops start-up. */
  function Parse(content: string): Result<Catalog, CatalogError> {
    match Entries(Rows(content))
    case Err(e) => Err(e)
    case Ok(es) => Ok(Build(es))
  }

  /**
   * The start-up loop: for each row after the first delimiter, assign the row's id
   * to its name; a row that does not parse stops start-up.
   */
  method BuildCatalog(content: string) returns (r: Result<Catalog, CatalogError>)
    ensures r == Parse(content)
    ensures r.Ok? ==> Valid(r.value)
  {
    var rows := Rows(content);
    var maps := Catalog([], map[]);
    ghost var entries: seq<(int, string)> := [];
    var i := 0;
    while i < |rows|
      invariant 0 <= i <= |rows|
      invariant Collect(ParsedRows(rows)[..i]) == Ok(entries)
      invariant maps == Build(entries)
    {
      var row := ParseRow(rows[i]);
      RowStep(rows, i, entries, row);
      if row.Err? {
        return Err(row.error);
      }
      maps := Assign(maps, row.value.0, row.value.1);
      entries := entries + [row.value];
      i := i + 1;
    }
    assert ParsedRows(rows)[..i] == ParsedRows(rows);
    r := Ok(maps);
  }

  /** One turn of the start-up loop: the row's pair extends the entries, or its error is the outcome. */
  lemma RowStep(rows: seq<string>, i: nat, entries: seq<(int, string)>, row: Result<(int, string), CatalogError>)
    requires i < |rows| && Collect(ParsedRows(rows)[..i]) == Ok(entries) && row == ParseRow(rows[i])
    ensures row.Err? ==> Entries(rows) == Err(row.error)
    ensures row.Ok? ==> Collect(ParsedRows(rows)[..i + 1]) == Ok(entries + [row.value])
    ensures row.Ok? ==> Build(entries + [row.value]) == Assign(Build(entries), row.value.0, row.value.1)
  {
    var parsed := ParsedRows(rows);
    assert parsed[i] == row;
    CollectStep(parsed, i);
    if row.Err? {
      CollectStopsAtError(parsed, i + 1);
    } else {
      BuildStep(entries, row.value);
    }
  }

  /** One more result extends a successful collection by its value, or ends it with its error. */
  lemma CollectStep<T, E>(results: seq<Result<T, E>>, i: nat)
    requires i < |results| && Collect(results[..i]).Ok?
    ensures Collect(results[..i + 1]) ==
      if results[i].Err? then Err(results[i].error)
      else Ok(Collect(results[..i]).value + [results[i].value])
  {
    assert results[..i + 1][..i] == results[..i];
  }

  /** Assigning one more entry is one more `Assign`. */
  lemma BuildStep(entries: seq<(int, string)>, e: (int, string))
    ensures Build(entries + [e]) == Assign(Build(entries), e.0, e.1)
  {
    assert (entries + [e])[..|entries|] == entries;
  }

  /** Once a result is an error, collecting stops with that error, whatever follows it. */
  lemma {:induction false} CollectStopsAtError<T, E>(results: seq<Result<T, E>>, j: nat)
    requires j <= |results| && Collect(results[..j]).Err?
    ensures Collect(results) == Collect(results[..j])
    decreases |results| - j
  {
    if j < |results| {
      assert results[..j + 1][..j] == results[..j];
      CollectStopsAtError(results, j + 1);
    } else {
      assert results[..j] == results;
    }
  }

  /** A successful collection holds one value per result, at the same position. */
  lemma {:induction false} CollectPerItem<T, E>(results: seq<Result<T, E>>)
    requires Collect(results).Ok?
    ensures |Collect(results).value| == |results|
    ensures forall i :: 0 <= i < |results| ==> results[i] == Ok(Collect(results).value[i])
  {
    if results != [] {
      var init := results[..|results| - 1];
      CollectPerItem(init);
      forall i | 0 <= i < |results| ensures results[i] == Ok(Collect(results).value[i]) {
        if i < |init| {
          assert results[i] == init[i];
        }
      }
    }
  }

  /**
   * Every row after the first delimiter contributes, at its own position, the
   * pair its cells give: the stripped first cell read as an integer and the
   * stripped second cell.
   */
  lemma EntriesPerRow(rows: seq<string>)
    requires Entries(rows).Ok?
    ensures |Entries(rows).value| == |rows|
    ensures forall i :: 0 <= i < |rows| ==> ParseRow(rows[i]) == Ok(Entries(rows).value[i])
  {
    CollectPerItem(ParsedRows(rows));
  }

  /** The ids of `entries`, in order. */
  function Keys(entries: seq<(int, string)>): seq<int> {
    seq(|entries|, i requires 0 <= i < |entries| => entries[i].0)
  }

  /** The ids of the catalog are exactly the ids that some entry assigns. */
  lemma {:induction false} BuildKeys(entries: seq<(int, string)>)
    ensures forall k :: k in Build(entries).names <==> k in Keys(entries)
  {
    if entries != [] {
      var init := entries[..|entries| - 1];
      BuildKeys(init);
      assert Keys(entries) == Keys(init) + [entries[|entries| - 1].0];
    }
  }

  /** A later assignment to the same id overwrites the earlier one: each id ends up with the name of its last entry. */
  lemma {:induction false} BuildLastWins(entries: seq<(int, string)>, i: nat)
    requires i < |entries|
    requires forall j :: i < j < |entries| ==> entries[j].0 != entries[i].0
    ensures entries[i].0 in Build(entries).names
    ensures Build(entries).names[entries[i].0] == entries[i].1
  {
    var init := entries[..|entries| - 1];
    if i < |entries| - 1 {
      BuildLastWins(init, i);
    }
  }

  /** The position of the first occurrence of `k` in `ks`. */
  function FirstIndex(ks: seq<int>, k: int): (r: nat)
    requires k in ks
    ensures r < |ks| && ks[r] == k
    ensures forall j :: 0 <= j < r ==> ks[j] != k
  {
    if ks[0] == k then 0 else 1 + FirstIndex(ks[1..], k)
  }

  /** The first occurrence is unaffected by what is appended later. */
  lemma FirstIndexPrefix(ks: seq<int>, more: seq<int>, k: int)
    requires k in ks
    ensures k in ks + more && FirstIndex(ks + more, k) == FirstIndex(ks, k)
  {
    var i := FirstIndex(ks, k);
    var j := FirstIndex(ks + more, k);
    assert (ks + more)[i] == k;
    assert ks[j] == k by { if j >= |ks| { assert false; } }
  }

  /** Each id of `ids` occurs in `ks`, and first occurs there before every id listed after it. */
  ghost predicate InFirstOccurrenceOrder(ids: seq<int>, ks: seq<int>) {
    && (forall a :: 0 <= a < |ids| ==> ids[a] in ks)
    && (forall a, b :: 0 <= a < b < |ids| && ids[a] in ks && ids[b] in ks ==>
          FirstIndex(ks, ids[a]) < FirstIndex(ks, ids[b]))
  }

  /** The catalog lists its ids in the order in which each was first assigned. */
  lemma {:induction false} BuildOrder(entries: seq<(int, string)>)
    ensures InFirstOccurrenceOrder(Build(entries).ids, Keys(entries))
  {
    if entries != [] {
      var init := entries[..|entries| - 1];
      var last := entries[|entries| - 1];
      var c0 := Build(init);
      BuildOrder(init);
      assert Keys(entries) == Keys(init) + [last.0];
      if last.0 in c0.names {
        assert Build(entries).ids == c0.ids;
        OrderKeptByLaterKey(c0.ids, Keys(init), last.0);
      } else {
        assert Build(entries).ids == c0.ids + [last.0];
        BuildKeys(init);
        OrderExtendedByNewKey(c0.ids, Keys(init), last.0);
      }
    }
  }

  lemma OrderAt(ids: seq<int>, ks: seq<int>, a: int, b: int)
    requires InFirstOccurrenceOrder(ids, ks) && 0 <= a < b < |ids|
    ensures ids[a] in ks && ids[b] in ks && FirstIndex(ks, ids[a]) < FirstIndex(ks, ids[b])
  {
  }

  /** Appending a key to `ks` keeps the order of the ids already listed in it. */
  lemma OrderKeptByLaterKey(ids: seq<int>, ks: seq<int>, k: int)
    requires InFirstOccurrenceOrder(ids, ks)
    ensures InFirstOccurrenceOrder(ids, ks + [k])
  {
    var ks' := ks + [k];
    forall a | 0 <= a < |ids| ensures ids[a] in ks' {
      assert ids[a] in ks;
    }
    forall a, b | 0 <= a < b < |ids| && ids[a] in ks' && ids[b] in ks'
      ensures FirstIndex(ks', ids[a]) < FirstIndex(ks', ids[b])
    {
      OrderAt(ids, ks, a, b);
      FirstIndexPrefix(ks, [k], ids[a]);
      FirstIndexPrefix(ks, [k], ids[b]);
    }
  }

  /** A key never seen before goes after every listed id, in the ids and in the keys alike. */
  lemma OrderExtendedByNewKey(ids: seq<int>, ks: seq<int>, k: int)
    requires InFirstOccurrenceOrder(ids, ks)
    requires k !in ks
    ensures InFirstOccurrenceOrder(ids + [k], ks + [k])
  {
    var ids' := ids + [k];
    var ks' := ks + [k];
    assert FirstIndex(ks', k) == |ks| by {
      assert ks'[|ks|] == k;
    }
    forall a | 0 <= a < |ids'| ensures ids'[a] in ks' {
      if a < |ids| {
        assert ids'[a] == ids[a] && ids[a] in ks;
      }
    }
    forall a, b | 0 <= a < b < |ids'| && ids'[a] in ks' && ids'[b] in ks'
      ensures FirstIndex(ks', ids'[a]) < FirstIndex(ks', ids'[b])
    {
      assert ids'[a] == ids[a] && ids[a] in ks;
      FirstIndexPrefix(ks, [k], ids[a]);
      if b < |ids| {
        assert ids'[b] == ids[b];
        OrderAt(ids, ks, a, b);
        FirstIndexPrefix(ks, [k], ids[b]);
      }
    }
  }

  /** One button per catalog entry, labelled with its name and carrying its id as callback data. */
  function MapButtons(c: Catalog): seq<Keyboard.Button>
    requires Valid(c)
  {
    seq(|c.ids|, i requires 0 <= i < |c.ids| =>
      var k := c.ids[i];
      assert k in c.ids;
      Keyboard.Button(c.names[k], IntToString(k)))
  }

  /** The map picker: one catalog entry per row, in the catalog's insertion order. */
  function MapKeyboard(c: Catalog): (rows: seq<seq<Keyboard.Button>>)
    requires Valid(c)
    ensures |rows| == |c.ids|
    ensures forall i :: 0 <= i < |c.ids| ==>
      c.ids[i] in c.names && rows[i] == [Keyboard.Button(c.names[c.ids[i]], IntToString(c.ids[i]))]
  {
    Keyboard.ChunksOfOne(MapButtons(c));
    Keyboard.Chunks(MapButtons(c), 1)
  }
}
