/** Reply-keyboard layout: a list of keys laid out in rows of two, as
    `get_reply_markup` and `get_markup_keyboard` build it. */
module Utils {

  /** The filler key `get_reply_markup` adds to an odd list. */
  const Placeholder: string := "- - -"

  /** `[keys[i:i+2] for i in range(0, len(keys), 2)]`: consecutive pairs, the
      last row holding a single key when the count is odd. */
  function Pairs<T>(keys: seq<T>): seq<seq<T>>
    decreases |keys|
  {
    if |keys| <= 2 then (if keys == [] then [] else [keys])
    else [keys[..2]] + Pairs(keys[2..])
  }

  /** The rows written one after the other. */
  function Flatten<T>(rows: seq<seq<T>>): seq<T>
  {
    if rows == [] then [] else rows[0] + Flatten(rows[1..])
  }

  /** There are ceil(n / 2) rows; no keys, no rows. */
  lemma {:induction false} PairsCount<T>(keys: seq<T>)
    ensures |Pairs(keys)| == (|keys| + 1) / 2
  {
    if |keys| > 2 {
      PairsCount(keys[2..]);
    }
  }

  /** Reading the rows in order gives back the keys in order. */
  lemma {:induction false} PairsFlatten<T>(keys: seq<T>)
    ensures Flatten(Pairs(keys)) == keys
  {
    if |keys| > 2 {
      PairsFlatten(keys[2..]);
      assert Pairs(keys)[1..] == Pairs(keys[2..]);
      assert keys[..2] + keys[2..] == keys;
    } else if keys != [] {
      assert Flatten(Pairs(keys)) == keys + Flatten([]);
    }
  }

  /** Every row holds two keys, except the last, which holds one exactly
      when the number of keys is odd. */
  lemma {:induction false} PairsShape<T>(keys: seq<T>)
    ensures forall r :: 0 <= r < |Pairs(keys)| ==>
      |Pairs(keys)[r]| == if r == |Pairs(keys)| - 1 && |keys| % 2 == 1 then 1 else 2
  {
    PairsCount(keys);
    if |keys| > 2 {
      PairsShape(keys[2..]);
      PairsCount(keys[2..]);
      forall r | 1 <= r < |Pairs(keys)|
        ensures |Pairs(keys)[r]| == if r == |Pairs(keys)| - 1 && |keys| % 2 == 1 then 1 else 2
      {
        assert Pairs(keys)[r] == Pairs(keys[2..])[r - 1];
      }
    }
  }

  /** The key list after `get_reply_markup` has padded it to even length. */
  function Padded(keys: seq<string>): (r: seq<string>)
  {
    if |keys| % 2 != 0 then keys + [Placeholder] else keys
  }

  /** After padding, every row holds exactly two keys, there are ceil(n / 2)
      rows, and the rows read back as the keys followed by the placeholder
      exactly when n was odd. */
  lemma PaddedPairs(keys: seq<string>)
    ensures |Pairs(Padded(keys))| == (|keys| + 1) / 2
    ensures forall r :: 0 <= r < |Pairs(Padded(keys))| ==> |Pairs(Padded(keys))[r]| == 2
    ensures Flatten(Pairs(Padded(keys))) == if |keys| % 2 == 1 then keys + [Placeholder] else keys
  {
    PairsCount(Padded(keys));
    PairsShape(Padded(keys));
    PairsFlatten(Padded(keys));
  }

  /** The row-building loop shared by both helpers: `keys[i:i+2]` for
      i = 0, 2, 4, ... while i < len(keys). */
  method ChunkPairs<T>(keys: seq<T>) returns (rows: seq<seq<T>>)
    ensures rows == Pairs(keys)
  {
    rows := [];
    var i := 0;
    while i < |keys|
      invariant 0 <= i <= |keys|
      invariant rows + Pairs(keys[i..]) == Pairs(keys)
    {
      var end := if i + 2 <= |keys| then i + 2 else |keys|;
      assert Pairs(keys[i..]) == [keys[i..end]] + Pairs(keys[end..]) by {
        if |keys[i..]| > 2 {
          assert keys[i..][..2] == keys[i..end];
          assert keys[i..][2..] == keys[end..];
        } else {
          assert keys[i..] == keys[i..end];
          assert keys[end..] == [];
        }
      }
      rows := rows + [keys[i..end]];
      i := end;
    }
    assert keys[i..] == [];
  }

  /** The object whose `callbacks` list `get_reply_markup` reads and pads. */
  class KeyList {
    var callbacks: seq<string>

    constructor(keys: seq<string>)
      ensures callbacks == keys
    {
      callbacks := keys;
    }
  }

  /** `get_reply_markup(next_state)`: pads the caller's list in place when it
      has odd length, then returns its keys in rows of two. */
  method GetReplyMarkup(nextState: KeyList) returns (markup: seq<seq<string>>)
    modifies nextState
    ensures nextState.callbacks == Padded(old(nextState.callbacks))
    ensures markup == Pairs(nextState.callbacks)
  {
    if |nextState.callbacks| % 2 != 0 {
      nextState.callbacks := nextState.callbacks + [Placeholder];
    }
    markup := ChunkPairs(nextState.callbacks);
  }
}
