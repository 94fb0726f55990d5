/** Rows of equal width laid out one after the other in a flat buffer. */
module Flattening {
  import opened Arithmetic

  function Flatten<T>(rows: seq<seq<T>>): seq<T> {
    if rows == [] then [] else Flatten(rows[..|rows| - 1]) + rows[|rows| - 1]
  }

  ghost predicate Uniform<T>(rows: seq<seq<T>>, width: nat) {
    forall i :: 0 <= i < |rows| ==> |rows[i]| == width
  }

  lemma {:induction false} FlatLength<T>(rows: seq<seq<T>>, width: nat)
    requires Uniform(rows, width)
    ensures |Flatten(rows)| == |rows| * width
  {
    if rows != [] {
      var front := rows[..|rows| - 1];
      FlatLength(front, width);
      MulSucc(|front|, width);
    }
  }

  lemma {:induction false} FlattenSnoc<T>(rows: seq<seq<T>>, i: nat)
    requires i < |rows|
    ensures Flatten(rows[..i + 1]) == Flatten(rows[..i]) + rows[i]
  {
    assert rows[..i + 1][..i] == rows[..i];
  }

  lemma {:induction false} FlattenCons<T>(row: seq<T>, rows: seq<seq<T>>)
    ensures Flatten([row] + rows) == row + Flatten(rows)
  {
    var all := [row] + rows;
    if rows == [] {
      assert all[..0] == [];
    } else {
      FlattenCons(row, rows[..|rows| - 1]);
      assert all[..|all| - 1] == [row] + rows[..|rows| - 1];
    }
  }

  /** Row i occupies [i*width, (i+1)*width). */
  lemma {:induction false} FlatRow<T>(rows: seq<seq<T>>, width: nat, i: nat)
    requires Uniform(rows, width) && i < |rows|
    ensures |Flatten(rows)| == |rows| * width
    ensures 0 <= i * width <= (i + 1) * width <= |Flatten(rows)|
    ensures Flatten(rows)[i * width..(i + 1) * width] == rows[i]
  {
    var front := rows[..|rows| - 1];
    FlatLength(front, width);
    FlatLength(rows, width);
    if i < |rows| - 1 {
      FlatRow(front, width, i);
      assert Flatten(rows)[..|Flatten(front)|] == Flatten(front);
      assert Flatten(rows)[i * width..(i + 1) * width] == Flatten(front)[i * width..(i + 1) * width];
    }
  }

  lemma {:induction false} FlatAt<T>(rows: seq<seq<T>>, width: nat, i: nat, j: nat)
    requires Uniform(rows, width) && i < |rows| && j < width
    ensures |Flatten(rows)| == |rows| * width
    ensures i * width + j < |Flatten(rows)| && Flatten(rows)[i * width + j] == rows[i][j]
  {
    FlatRow(rows, width, i);
    MulSucc(i, width);
    assert Flatten(rows)[i * width..(i + 1) * width][j] == Flatten(rows)[i * width + j];
  }

  /** Writing one element of one row. */
  lemma {:induction false} FlatUpdate<T>(rows: seq<seq<T>>, width: nat, i: nat, j: nat, x: T)
    requires Uniform(rows, width) && i < |rows| && j < width
    ensures i * width + j < |Flatten(rows)| == |rows| * width
    ensures Flatten(rows[i := rows[i][j := x]]) == Flatten(rows)[i * width + j := x]
  {
    FlatAt(rows, width, i, j);
    var front, last := rows[..|rows| - 1], |rows| - 1;
    var after := rows[i := rows[i][j := x]];
    if i < last {
      FlatUpdate(front, width, i, j, x);
      assert after[..last] == front[i := front[i][j := x]];
    } else {
      FlatLength(front, width);
      assert after[..last] == front;
    }
  }

  /** The first n rows of a flat buffer. */
  function Unflatten<T>(flat: seq<T>, width: nat, n: nat): (rows: seq<seq<T>>)
    requires n * width <= |flat|
    ensures |rows| == n && Uniform(rows, width)
  {
    seq(n, i requires 0 <= i < n => RowOf(flat, width, n, i))
  }

  function RowOf<T>(flat: seq<T>, width: nat, n: nat, i: nat): (row: seq<T>)
    requires n * width <= |flat| && i < n
    ensures 0 <= i * width <= (i + 1) * width <= |flat| && row == flat[i * width..(i + 1) * width] && |row| == width
  {
    MulMono(i + 1, n, width);
    MulSucc(i, width);
    flat[i * width..(i + 1) * width]
  }

  lemma {:induction false} UnflattenFlatten<T>(rows: seq<seq<T>>, width: nat)
    requires Uniform(rows, width)
    ensures |Flatten(rows)| == |rows| * width && Unflatten(Flatten(rows), width, |rows|) == rows
  {
    FlatLength(rows, width);
    forall i | 0 <= i < |rows| ensures Unflatten(Flatten(rows), width, |rows|)[i] == rows[i] {
      FlatRow(rows, width, i);
    }
  }

  /** Overwrite a stretch of a buffer. */
  function Blit<T>(out: seq<T>, dst: nat, chunk: seq<T>): (r: seq<T>)
    requires dst + |chunk| <= |out|
    ensures |r| == |out|
    ensures forall i :: 0 <= i < |out| ==> r[i] == if dst <= i < dst + |chunk| then chunk[i - dst] else out[i]
  {
    out[..dst] + chunk + out[dst + |chunk|..]
  }

  /** Overwriting row c of a flat buffer. */
  lemma {:induction false} UnflattenBlit<T>(flat: seq<T>, width: nat, n: nat, c: nat, row: seq<T>)
    requires |flat| == n * width && c < n && |row| == width
    ensures c * width + width <= |flat|
    ensures Unflatten(Blit(flat, c * width, row), width, n) == Unflatten(flat, width, n)[c := row]
  {
    MulSucc(c, width);
    MulMono(c + 1, n, width);
    var after := Blit(flat, c * width, row);
    forall i | 0 <= i < n ensures RowOf(after, width, n, i) == if i == c then row else RowOf(flat, width, n, i) {
      RowsApart(i, c, width);
    }
  }

  lemma {:induction false} RowsApart(i: nat, c: nat, width: nat)
    ensures (i + 1) * width == i * width + width
    ensures i < c ==> (i + 1) * width <= c * width
    ensures c < i ==> c * width + width <= i * width
  {
    MulSucc(i, width);
    MulSucc(c, width);
    if i < c { MulMono(i + 1, c, width); }
    if c < i { MulMono(c + 1, i, width); }
  }
}
