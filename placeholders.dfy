/**
 * Multi-row INSERT statements: the services number the placeholders of VALUES tuple i and
 * flatten the rows' values into one parameter list. A statement binds correctly when every
 * placeholder names the parameter that holds the value of its own row and column.
 */
module Placeholders {
  import opened Common

  /** A value bound to a $n placeholder. */
  datatype Param = PText(text: string) | PNum(num: int) | PNull

  /** A nullable text column's value. */
  function TextOrNull(o: Option<string>): Param
  {
    if o.Some? then PText(o.value) else PNull
  }

  /** How many shared leading parameters a statement has: $1 in every tuple, or none. */
  function Lead(shared: bool): nat
  {
    if shared then 1 else 0
  }

  /**
   * The placeholder numbers of tuple i: `$1` first when the first parameter is shared, then
   * `width` consecutive numbers starting after the shared one and the tuples before.
   */
  function Tuple(i: nat, shared: bool, width: nat): (t: seq<int>)
    ensures |t| == Lead(shared) + width
  {
    (if shared then [1] else []) + seq(width, k requires 0 <= k < width => Lead(shared) + width * i + k + 1)
  }

  /** The VALUES list for n rows. */
  function Tuples(n: nat, shared: bool, width: nat): (ts: seq<seq<int>>)
    ensures |ts| == n
  {
    seq(n, i requires 0 <= i < n => Tuple(i, shared, width))
  }

  /** Every row carries exactly `width` values. */
  predicate Rectangular(rows: seq<seq<Param>>, width: nat)
  {
    forall i :: 0 <= i < |rows| ==> |rows[i]| == width
  }

  /** flatMap over the rows: their values one after the other. */
  function Flatten(rows: seq<seq<Param>>): seq<Param>
  {
    if rows == [] then [] else rows[0] + Flatten(rows[1..])
  }

  /** The parameter list: the shared leading values, then every row's values. */
  function Params(lead: seq<Param>, rows: seq<seq<Param>>): seq<Param>
  {
    lead + Flatten(rows)
  }

  lemma {:induction false} FlattenLength(rows: seq<seq<Param>>, width: nat)
    requires Rectangular(rows, width)
    ensures |Flatten(rows)| == width * |rows|
  {
    if rows != [] {
      FlattenLength(rows[1..], width);
    }
  }

  lemma {:induction false} FlattenAt(rows: seq<seq<Param>>, width: nat, i: nat, k: nat)
    requires Rectangular(rows, width) && i < |rows| && k < width
    ensures width * i + k < |Flatten(rows)|
    ensures Flatten(rows)[width * i + k] == rows[i][k]
  {
    FlattenLength(rows, width);
    if i > 0 {
      FlattenAt(rows[1..], width, i - 1, k);
      assert width * i + k == width + (width * (i - 1) + k);
    }
  }

  /** Column c of row i of n rows of `width` values lies inside the flattened list. */
  lemma {:induction false} RowBeforeEnd(width: nat, i: nat, n: nat, c: nat)
    requires i < n && c < width
    ensures width * i + c < width * n
  {
    if i + 1 < n {
      RowBeforeEnd(width, i, n - 1, c);
      assert width * n == width * (n - 1) + width;
    } else {
      assert width * n == width * i + width;
    }
  }

  /**
   * The statement binds correctly: there are exactly lead + width * n parameters, every
   * placeholder of every tuple names one of them, the shared placeholder names the shared
   * value and placeholder `lead + k` of tuple i names column k of row i.
   */
  lemma {:induction false} BindingCorrect(lead: seq<Param>, rows: seq<seq<Param>>, shared: bool, width: nat, i: nat, k: nat)
    requires |lead| == Lead(shared) && Rectangular(rows, width)
    requires i < |rows| && k < Lead(shared) + width
    ensures |Params(lead, rows)| == Lead(shared) + width * |rows|
    ensures 1 <= Tuples(|rows|, shared, width)[i][k] <= |Params(lead, rows)|
    ensures Params(lead, rows)[Tuples(|rows|, shared, width)[i][k] - 1]
         == if k < Lead(shared) then lead[0] else rows[i][k - Lead(shared)]
  {
    FlattenLength(rows, width);
    var t := Tuple(i, shared, width);
    assert Tuples(|rows|, shared, width)[i] == t;
    if k >= Lead(shared) {
      var c := k - Lead(shared);
      var at := width * i + c;
      assert t[k] == Lead(shared) + at + 1;
      FlattenAt(rows, width, i, c);
      RowBeforeEnd(width, i, |rows|, c);
      assert Params(lead, rows)[Lead(shared) + at] == Flatten(rows)[at];
    }
  }
}
