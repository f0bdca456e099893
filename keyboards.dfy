/**
 * Inline keyboards (keyboards.py): `inline_keyboard` turns (text, callback)
 * pairs into buttons and lays them out in rows of `row` buttons, the last
 * row holding what is left.
 */
module Keyboards {
  import opened Wrappers

  /** `{"text": t, "callback_data": d}` */
  datatype Button = Button(text: string, callbackData: string)

  /** `{"inline_keyboard": rows}` */
  datatype Markup = Markup(inlineKeyboard: seq<seq<Button>>)

  /** The buttons for the given (text, callback) pairs, in order. */
  function ToButtons(pairs: seq<(string, string)>): (r: seq<Button>)
    ensures |r| == |pairs|
    ensures forall k :: 0 <= k < |pairs| ==> r[k] == Button(pairs[k].0, pairs[k].1)
  {
    seq(|pairs|, k requires 0 <= k < |pairs| => Button(pairs[k].0, pairs[k].1))
  }

  /** Consecutive slices `s[i:i+width]` for i = 0, width, 2*width, ... */
  function Chunks<T>(s: seq<T>, width: nat): seq<seq<T>>
    requires width >= 1
    decreases |s|
  {
    if s == [] then []
    else if |s| <= width then [s]
    else [s[..width]] + Chunks(s[width..], width)
  }

  /** The rows read one after another. */
  function Flatten<T>(rows: seq<seq<T>>): seq<T>
    decreases |rows|
  {
    if rows == [] then [] else rows[0] + Flatten(rows[1..])
  }

  /** Reading the rows in order gives back exactly the input. */
  lemma {:induction false} FlattenChunks<T>(s: seq<T>, width: nat)
    requires width >= 1
    ensures Flatten(Chunks(s, width)) == s
    decreases |s|
  {
    if |s| > width {
      FlattenChunks(s[width..], width);
      assert s == s[..width] + s[width..];
    } else if s != [] {
      assert Flatten([s]) == s + Flatten([]);
    }
  }

  /** Every row but the last is full; the last holds between 1 and `width` items. */
  lemma {:induction false} ChunkSizes<T>(s: seq<T>, width: nat)
    requires width >= 1
    ensures forall i :: 0 <= i < |Chunks(s, width)| - 1 ==> |Chunks(s, width)[i]| == width
    ensures Chunks(s, width) != [] ==> 1 <= |Chunks(s, width)[|Chunks(s, width)| - 1]| <= width
    decreases |s|
  {
    if |s| > width {
      ChunkSizes(s[width..], width);
      var c := Chunks(s, width);
      assert c[1..] == Chunks(s[width..], width);
    }
  }

  /** There are ceil(n / width) rows; in particular no rows for no items. */
  lemma {:induction false} ChunkCount<T>(s: seq<T>, width: nat)
    requires width >= 1
    ensures |Chunks(s, width)| == (|s| + width - 1) / width
    decreases |s|
  {
    if |s| > width {
      ChunkCount(s[width..], width);
      assert (|s| + width - 1) / width == (|s| - width + width - 1) / width + 1 by {
        DivShift(|s| - width + width - 1, width);
      }
    } else if s != [] {
      assert width <= |s| + width - 1 < 2 * width;
    }
  }

  /** A larger factor gives a product at least one divisor larger: the uniqueness step of `DivUnique`. */
  lemma MulStep(x: int, y: int, d: int)
    requires d >= 1
    ensures x < y ==> x * d + d <= y * d
  {
    if x < y {
      var k := y - x - 1;
      assert k * d >= 0;
      assert y * d == x * d + k * d + d;
    }
  }

  /** Quotient and remainder are the only ones with n == q * d + m and 0 <= m < d. */
  lemma DivUnique(n: int, d: int, q: int, m: int)
    requires d >= 1 && 0 <= m < d && n == q * d + m
    ensures n / d == q && n % d == m
  {
    MulStep(n / d, q, d);
    MulStep(q, n / d, d);
  }

  /** Adding the divisor once adds one to the quotient and keeps the remainder. */
  lemma DivShift(a: nat, width: nat)
    requires width >= 1
    ensures (a + width) / width == a / width + 1
    ensures (a + width) % width == a % width
  {
    DivUnique(a + width, width, a / width + 1, a % width);
  }

  /** The item at index k lands in row k / width at position k % width. */
  lemma {:induction false} ChunkPosition<T>(s: seq<T>, width: nat, k: nat)
    requires width >= 1 && k < |s|
    ensures k / width < |Chunks(s, width)|
    ensures k % width < |Chunks(s, width)[k / width]|
    ensures Chunks(s, width)[k / width][k % width] == s[k]
    decreases |s|
  {
    var c := Chunks(s, width);
    if k < width {
      DivUnique(k, width, 0, k);
      assert c[0] == if |s| <= width then s else s[..width];
    } else {
      ChunkPosition(s[width..], width, k - width);
      DivShift(k - width, width);
      assert c[1..] == Chunks(s[width..], width);
      assert c[k / width] == Chunks(s[width..], width)[(k - width) / width];
    }
  }

  /** `s[i:]`, which is empty once i has run past the end. */
  function Drop<T>(s: seq<T>, i: nat): seq<T> {
    if i <= |s| then s[i..] else []
  }

  /** The chunks from index i are the slice `s[i:i+width]` and the chunks after it. */
  lemma ChunkStep<T>(s: seq<T>, i: nat, width: nat)
    requires width >= 1 && i < |s|
    ensures Chunks(Drop(s, i), width)
      == [s[i..if i + width <= |s| then i + width else |s|]] + Chunks(Drop(s, i + width), width)
  {
    var rest := s[i..];
    if |rest| > width {
      assert rest[..width] == s[i..i + width] && rest[width..] == s[i + width..];
    } else {
      assert Drop(s, i + width) == [];
      assert rest != [] && Chunks(rest, width) == [rest];
      assert s[i..if i + width <= |s| then i + width else |s|] == rest;
    }
  }

  /**
   * `inline_keyboard(buttons, row)`. A zero row width makes `range` raise
   * (None here); a negative one makes the range empty, so there are no rows.
   */
  method InlineKeyboard(buttons: seq<(string, string)>, row: int := 2) returns (r: Option<Markup>)
    ensures r.None? <==> row == 0
    ensures row < 0 ==> r == Some(Markup([]))
    ensures row > 0 ==> r == Some(Markup(Chunks(ToButtons(buttons), row)))
    ensures row > 0 ==> Flatten(r.value.inlineKeyboard) == ToButtons(buttons)
    ensures row > 0 ==> |r.value.inlineKeyboard| == (|buttons| + row - 1) / row
  {
    if row == 0 {
      return None;
    }
    if row < 0 {
      return Some(Markup([]));
    }
    var all := ToButtons(buttons);
    var rows: seq<seq<Button>> := [];
    var i := 0;
    while i < |buttons|
      invariant 0 <= i
      invariant rows + Chunks(Drop(all, i), row) == Chunks(all, row)
      decreases |buttons| - i
    {
      var end := if i + row <= |buttons| then i + row else |buttons|;
      var slice := ToButtons(buttons[i..end]);
      assert slice == all[i..end];
      ChunkStep(all, i, row);
      rows := rows + [slice];
      i := i + row;
    }
    assert Drop(all, i) == [] && rows + [] == rows;
    r := Some(Markup(rows));
    FlattenChunks(all, row);
    ChunkCount(all, row);
  }
}
