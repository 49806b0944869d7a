/** One layer's keys and values for a whole batch in one buffer: each row ends at
    the same column and starts wherever its own history began. */
module StackedCache {
  import opened Prelude
  import opened Softmax

  /** What one stream owns of a layer's cache: its history in order, and the
      position its next token takes. */
  datatype Row = Row(keys: seq<Heads>, vals: seq<Heads>, pos: nat)

  predicate Paired(r: Row) { |r.keys| == |r.vals| }

  /** One token appended to a row. */
  function Grown(r: Row, key: Heads, val: Heads): Row {
    Row(r.keys + [key], r.vals + [val], r.pos + 1)
  }

  const ZERO: Heads := []

  function Zeros(n: nat): (cols: seq<Heads>)
    ensures |cols| == n
  {
    seq(n, _ => ZERO)
  }

  /** `t` with blank columns on both sides. */
  function Place(t: seq<Heads>, left: nat, right: nat): (cols: seq<Heads>)
    ensures |cols| == left + |t| + right
  {
    Zeros(left) + t + Zeros(right)
  }

  /** A row whose history is the last `len` columns before `cur`. */
  function RowAt(k: seq<Heads>, v: seq<Heads>, cur: nat, len: nat, pos: nat): (r: Row)
    requires len <= cur <= |k| == |v|
    ensures Paired(r) && |r.keys| == len
  {
    Row(k[cur - len..cur], v[cur - len..cur], pos)
  }

  lemma RowPlaced(k: seq<Heads>, v: seq<Heads>, left: nat, right: nat, cur: nat, len: nat, pos: nat)
    requires len <= cur <= |k| == |v|
    ensures RowAt(Place(k, left, right), Place(v, left, right), left + cur, len, pos) == RowAt(k, v, cur, len, pos)
  {
    assert Place(k, left, right)[left + cur - len..left + cur] == k[cur - len..cur];
    assert Place(v, left, right)[left + cur - len..left + cur] == v[cur - len..cur];
  }

  lemma RowWritten(k: seq<Heads>, v: seq<Heads>, cur: nat, len: nat, pos: nat, key: Heads, val: Heads)
    requires len <= cur < |k| == |v|
    ensures RowAt(k[cur := key], v[cur := val], cur + 1, len + 1, pos + 1) ==
      Grown(RowAt(k, v, cur, len, pos), key, val)
  {
    assert k[cur := key][cur - len..cur + 1] == k[cur - len..cur] + [key];
    assert v[cur := val][cur - len..cur + 1] == v[cur - len..cur] + [val];
  }

  lemma RowWhole(k: seq<Heads>, v: seq<Heads>, pos: nat)
    requires |k| == |v|
    ensures RowAt(k, v, |k|, |k|, pos) == Row(k, v, pos)
  {
  }

  /** Every row with blank columns on both sides. */
  function Placed(t: seq<seq<Heads>>, left: nat, right: nat): (w: seq<seq<Heads>>)
    ensures |w| == |t| && forall i :: 0 <= i < |w| ==> w[i] == Place(t[i], left, right)
  {
    seq(|t|, i requires 0 <= i < |t| => Place(t[i], left, right))
  }

  /** `slice_set` of one column: row `i` takes `col[i]` at column `at`. */
  function Written(t: seq<seq<Heads>>, at: nat, col: seq<Heads>): (w: seq<seq<Heads>>)
    requires |t| == |col| && forall i :: 0 <= i < |t| ==> at < |t[i]|
    ensures |w| == |t| && forall i :: 0 <= i < |w| ==> w[i] == t[i][at := col[i]]
  {
    seq(|t|, i requires 0 <= i < |t| => t[i][at := col[i]])
  }

  function Incremented(ns: seq<nat>): (ms: seq<nat>)
    ensures |ms| == |ns| && forall i :: 0 <= i < |ms| ==> ms[i] == ns[i] + 1
  {
    seq(|ns|, i requires 0 <= i < |ns| => ns[i] + 1)
  }

  ghost function AllGrown(rows: seq<Row>, key: seq<Heads>, val: seq<Heads>): (grown: seq<Row>)
    requires |rows| == |key| == |val|
    ensures |grown| == |rows| && forall i :: 0 <= i < |grown| ==> grown[i] == Grown(rows[i], key[i], val[i])
  {
    seq(|rows|, i requires 0 <= i < |rows| == |key| == |val| => Grown(rows[i], key[i], val[i]))
  }

  /** Every head of a query over all the history of one row. */
  function AttendRow(kn: Kernel, q: Heads, r: Row): (out: Heads)
    requires Paired(r)
  {
    AttentionHeads(kn, q, r.keys, r.vals)
  }

  /** Lets columns `[lo, hi)` through. */
  function RowMask(cap: nat, lo: nat, hi: nat): (mask: seq<Extended>)
    requires lo <= hi <= cap
    ensures |mask| == cap && MaskIsWindow(mask, lo, hi)
  {
    seq(cap, j requires 0 <= j < cap => if lo <= j < hi then Fin(0.0) else NegInf)
  }

  class StackedKv {
    var k: seq<seq<Heads>>
    var v: seq<seq<Heads>>
    var cap: nat
    var cur: nat
    var len: seq<nat>
    var pos: seq<nat>

    /** The rows as their owners see them: columns `[cur - len[i], cur)`. */
    ghost var rows: seq<Row>

    /** Every row is as wide as the buffer and its history ends at `cur`. */
    ghost predicate Valid()
      reads this
    {
      && |k| == |v| == |len| == |pos| == |rows|
      && cur <= cap
      && forall i :: 0 <= i < |rows| ==>
        && |k[i]| == |v[i]| == cap && len[i] <= cur
        && rows[i] == RowAt(k[i], v[i], cur, len[i], pos[i])
    }

    constructor ()
      ensures Valid() && rows == [] && cur == 0
    {
      k, v, cap, cur, len, pos, rows := [], [], 0, 0, [], [], [];
    }

    /** Appends one row; the older rows move right when the new one is longer
        than the shared column. */
    method AddRow(key: seq<Heads>, val: seq<Heads>, at: nat)
      requires Valid() && |key| == |val|
      modifies this
      ensures Valid()
      ensures rows == old(rows) + [Row(key, val, at)]
      ensures cur == Max(old(cur), |key|) && cur < cap
    {
      hide RowAt, Place, NextPowerOfTwo;
      var newCur := Max(cur, |key|);
      var shift := newCur - cur;
      var oldCap := if |k| > 0 then cap else 0;
      var newCap := NextPowerOfTwo(Max(newCur + 1, oldCap + shift));
      var right := newCap - oldCap - shift;
      forall i | 0 <= i < |k|
        ensures RowAt(Place(k[i], shift, right), Place(v[i], shift, right), newCur, len[i], pos[i]) == rows[i]
      {
        RowPlaced(k[i], v[i], shift, right, cur, len[i], pos[i]);
      }
      RowPlaced(key, val, newCur - |key|, newCap - newCur, |key|, |key|, at);
      RowWhole(key, val, at);
      k := Placed(k, shift, right) + [Place(key, newCur - |key|, newCap - newCur)];
      v := Placed(v, shift, right) + [Place(val, newCur - |key|, newCap - newCur)];
      cap, cur, len, pos := newCap, newCur, len + [|key|], pos + [at];
      rows := rows + [Row(key, val, at)];
    }

    method RemoveRow(i: nat)
      requires Valid() && i < |rows|
      modifies this
      ensures Valid()
      ensures rows == RemoveAt(old(rows), i)
      ensures cur == old(cur) && cap == old(cap)
    {
      k, v, len, pos := RemoveAt(k, i), RemoveAt(v, i), RemoveAt(len, i), RemoveAt(pos, i);
      rows := RemoveAt(rows, i);
    }

    /** Doubles the buffer (to at least 64 more columns) once it is full. */
    method EnsureColumn()
      requires Valid()
      modifies this`k, this`v, this`cap
      ensures Valid() && cur < cap
    {
      if cur >= cap {
        var extra := Max(cap, 64);
        forall i | 0 <= i < |k|
          ensures RowAt(Place(k[i], 0, extra), Place(v[i], 0, extra), cur, len[i], pos[i]) == rows[i]
        {
          RowPlaced(k[i], v[i], 0, extra, cur, len[i], pos[i]);
        }
        k, v, cap := Placed(k, 0, extra), Placed(v, 0, extra), cap + extra;
      }
    }

    /** One column for every row at once. */
    method Push(key: seq<Heads>, val: seq<Heads>)
      requires Valid() && |key| == |val| == |rows|
      modifies this
      ensures Valid() && rows == AllGrown(old(rows), key, val)
      ensures cur == old(cur) + 1
    {
      hide RowAt;
      EnsureColumn();
      forall i | 0 <= i < |k|
        ensures RowAt(k[i][cur := key[i]], v[i][cur := val[i]], cur + 1, len[i] + 1, pos[i] + 1)
             == Grown(rows[i], key[i], val[i])
      {
        RowWritten(k[i], v[i], cur, len[i], pos[i], key[i], val[i]);
      }
      k, v := Written(k, cur, key), Written(v, cur, val);
      cur := cur + 1;
      len, pos := Incremented(len), Incremented(pos);
      rows := AllGrown(rows, key, val);
    }

    /** One query per row against its own history, either by reading each row's
        window or, off the CPU, by one masked softmax over the whole buffer. */
    method Attend(kn: Kernel, q: seq<Heads>, masked: bool) returns (out: seq<Heads>)
      requires Valid() && ExpLaws(kn.exp)
      requires |q| == |rows| && forall i :: 0 <= i < |rows| ==> rows[i].keys != []
      ensures |out| == |q|
      ensures forall i :: 0 <= i < |q| ==> out[i] == AttendRow(kn, q[i], rows[i])
    {
      out := [];
      for row := 0 to |q|
        invariant |out| == row
        invariant forall i :: 0 <= i < row ==> out[i] == AttendRow(kn, q[i], rows[i])
      {
        var start := cur - len[row];
        var mask := RowMask(cap, start, cur);
        ghost var r := rows[row];
        var o := [];
        for h := 0 to |q[row]|
          invariant o == AttendRow(kn, q[row], r)[..h]
        {
          var kb, vb := HeadOf(k[row], h), HeadOf(v[row], h);
          assert kb[start..cur] == HeadOf(r.keys, h) && vb[start..cur] == HeadOf(r.vals, h);
          var x;
          if masked {
            MaskedIsWindowed(kn, q[row][h], kb, vb, mask, start, cur);
            x := MaskedAttention(kn, q[row][h], kb, vb, mask);
          } else {
            x := WindowAttention(kn, q[row][h], kb, vb, start, cur);
          }
          o := o + [x];
        }
        out := out + [o];
      }
    }
  }
}
