/** A pandas data frame as a value: column labels and row-major cells.
    Only the frame operations the core uses are modelled. */
module Tables {
  import opened Wrappers
  import opened PyValues
  import opened Seqs

  datatype Table<T> = Table(columns: seq<string>, rows: seq<seq<T>>) {
    /** Every row has one cell per column. */
    predicate Valid() {
      forall i :: 0 <= i < |rows| ==> |rows[i]| == |columns|
    }
  }

  /** The column-label tests `c != name` and `c == name`, named so that two
      uses of the same test are the same function. */
  function Except(name: string): string -> bool {
    c => c != name
  }

  function Only(name: string): string -> bool {
    c => c == name
  }

  /** The test on the label of a (label, cell) pair. */
  function LabelKept<T>(keep: string -> bool): ((string, T)) -> bool {
    (p: (string, T)) => keep(p.0)
  }

  /** The cells of `row` whose column label satisfies `keep`, in column order:
      paired with the kept labels, they are exactly the kept (label, cell)
      pairs of the row. */
  function ProjectRow<T(==,!new)>(columns: seq<string>, row: seq<T>, keep: string -> bool): (r: seq<T>)
    requires |row| == |columns|
    ensures |r| == |Filter(columns, keep)|
    ensures Zip(Filter(columns, keep), r) == Filter(Zip(columns, row), LabelKept(keep))
  {
    if columns == [] then []
    else
      var rest := ProjectRow(columns[1..], row[1..], keep);
      assert Zip(columns, row)[1..] == Zip(columns[1..], row[1..]);
      var r := (if keep(columns[0]) then [row[0]] else []) + rest;
      assert keep(columns[0]) ==>
               Zip(Filter(columns, keep), r) == [(columns[0], row[0])] + Zip(Filter(columns[1..], keep), rest);
      r
  }

  /** The columns of `t` whose label satisfies `keep`, in their order, each row
      projected alike. */
  function Project<T(==,!new)>(t: Table<T>, keep: string -> bool): (r: Table<T>)
    requires t.Valid()
    ensures r.Valid()
    ensures r.columns == Filter(t.columns, keep)
    ensures |r.rows| == |t.rows|
    ensures forall i :: 0 <= i < |t.rows| ==> r.rows[i] == ProjectRow(t.columns, t.rows[i], keep)
  {
    Table(Filter(t.columns, keep),
          seq(|t.rows|, i requires 0 <= i < |t.rows| => ProjectRow(t.columns, t.rows[i], keep)))
  }

  /** `df.drop(columns=[name])`: a KeyError if there is no such column. */
  function Drop<T(==,!new)>(t: Table<T>, name: string): (r: Result<Table<T>, PyError>)
    requires t.Valid()
    ensures r.Success? <==> name in t.columns
    ensures r.Failure? ==> r.error == KeyError(name)
    ensures r.Success? ==> r.value.Valid() && |r.value.rows| == |t.rows|
    ensures r.Success? ==> r.value.columns == Filter(t.columns, Except(name))
    ensures r.Success? ==> forall c :: c in r.value.columns <==> c in t.columns && c != name
    ensures r.Success? ==>
              forall i :: 0 <= i < |t.rows| ==> r.value.rows[i] == ProjectRow(t.columns, t.rows[i], Except(name))
  {
    if name in t.columns then Success(Project(t, Except(name))) else Failure(KeyError(name))
  }

  /** `df[name]`: the column(s) labelled `name`; a KeyError if there is none. */
  function Pick<T(==,!new)>(t: Table<T>, name: string): (r: Result<Table<T>, PyError>)
    requires t.Valid()
    ensures r.Success? <==> name in t.columns
    ensures r.Failure? ==> r.error == KeyError(name)
    ensures r.Success? ==> r.value.Valid() && |r.value.rows| == |t.rows|
    ensures r.Success? ==> r.value.columns == Filter(t.columns, Only(name))
    ensures r.Success? ==> r.value.columns != [] && forall c :: c in r.value.columns ==> c == name
    ensures r.Success? ==>
              forall i :: 0 <= i < |t.rows| ==> r.value.rows[i] == ProjectRow(t.columns, t.rows[i], Only(name))
  {
    if name in t.columns then Success(Project(t, Only(name))) else Failure(KeyError(name))
  }

  /** Positional row selection (`.iloc[idx]`); an index past the end raises IndexError. */
  function TakeRows<T>(t: Table<T>, idx: seq<nat>): (r: Result<Table<T>, PyError>)
    ensures r.Success? <==> forall k :: 0 <= k < |idx| ==> idx[k] < |t.rows|
    ensures r.Failure? ==> r.error == IndexError
    ensures r.Success? ==> r.value.columns == t.columns && |r.value.rows| == |idx|
    ensures r.Success? ==> forall k :: 0 <= k < |idx| ==> r.value.rows[k] == t.rows[idx[k]]
    ensures r.Success? && t.Valid() ==> r.value.Valid()
  {
    if forall k :: 0 <= k < |idx| ==> idx[k] < |t.rows| then
      Success(Table(t.columns, seq(|idx|, k requires 0 <= k < |idx| => t.rows[idx[k]])))
    else
      Failure(IndexError)
  }

  /** A matrix of `height` rows of `width` cells each. */
  predicate HasShape<T>(m: seq<seq<T>>, height: nat, width: nat) {
    |m| == height && forall i :: 0 <= i < |m| ==> |m[i]| == width
  }

  /** Column `j` of a frame, top to bottom. */
  function Column<T>(t: Table<T>, j: nat): (r: seq<T>)
    requires t.Valid() && j < |t.columns|
    ensures |r| == |t.rows|
    ensures forall i :: 0 <= i < |t.rows| ==> r[i] == t.rows[i][j]
  {
    seq(|t.rows|, i requires 0 <= i < |t.rows| => t.rows[i][j])
  }
}
