/** Cutting a sequence into blocks of one size from the front: the arithmetic shared by the datagrams of
    the streamer and the encoder frames of the recorder. */
module Blocking {
  import opened Sequences

  /** The full blocks of `data`. */
  function Blocks<T>(data: seq<T>, size: nat): (blocks: seq<seq<T>>)
    requires 0 < size
  {
    if |data| < size then [] else [data[..size]] + Blocks(data[size..], size)
  }

  /** What is left of `data` behind its full blocks. */
  function Rest<T>(data: seq<T>, size: nat): (rest: seq<T>)
    requires 0 < size
  {
    if |data| < size then data else Rest(data[size..], size)
  }

  function Flatten<T>(pieces: seq<seq<T>>): (all: seq<T>)
  {
    if pieces == [] then [] else pieces[0] + Flatten(pieces[1..])
  }

  lemma {:induction false} FlattenAppend<T>(xs: seq<seq<T>>, ys: seq<seq<T>>)
    ensures Flatten(xs + ys) == Flatten(xs) + Flatten(ys)
  {
    if xs == [] {
      assert xs + ys == ys;
    } else {
      FlattenAppend(xs[1..], ys);
      assert (xs + ys)[1..] == xs[1..] + ys;
      Associative(xs[0], Flatten(xs[1..]), Flatten(ys));
    }
  }

  lemma {:induction false} FlattenLength<T>(blocks: seq<seq<T>>, size: nat)
    requires forall k :: 0 <= k < |blocks| ==> |blocks[k]| == size
    ensures |Flatten(blocks)| == |blocks| * size
  {
    if blocks == [] {
    } else {
      FlattenLength(blocks[1..], size);
      assert |blocks| * size == (|blocks| - 1) * size + size;
    }
  }

  /** What makes a cut: nothing is lost or reordered, every block is full, less than a block is left. */
  ghost predicate IsCut<T>(data: seq<T>, size: nat, blocks: seq<seq<T>>, rest: seq<T>)
  {
    && Flatten(blocks) + rest == data
    && (forall k :: 0 <= k < |blocks| ==> |blocks[k]| == size)
    && |rest| < size
  }

  lemma {:induction false} CutIsCut<T>(data: seq<T>, size: nat)
    requires 0 < size
    ensures IsCut(data, size, Blocks(data, size), Rest(data, size))
  {
    if size <= |data| {
      CutIsCut(data[size..], size);
      Associative(data[..size], Flatten(Blocks(data[size..], size)), Rest(data[size..], size));
    }
  }

  /** There is only one way to cut. */
  lemma {:induction false} CutIsUnique<T>(data: seq<T>, size: nat, blocks: seq<seq<T>>, rest: seq<T>)
    requires 0 < size && IsCut(data, size, blocks, rest)
    ensures blocks == Blocks(data, size) && rest == Rest(data, size)
    decreases |blocks|
  {
    if blocks == [] {
    } else {
      Associative(blocks[0], Flatten(blocks[1..]), rest);
      assert data[..size] == blocks[0];
      assert data[size..] == Flatten(blocks[1..]) + rest;
      CutIsUnique(data[size..], size, blocks[1..], rest);
    }
  }

  /** Cutting in two goes: the remainder of the first part starts the second. */
  lemma {:induction false} CutInTwo<T>(first: seq<T>, second: seq<T>, size: nat)
    requires 0 < size
    ensures var kept := Rest(first, size) + second;
            && Blocks(first + second, size) == Blocks(first, size) + Blocks(kept, size)
            && Rest(first + second, size) == Rest(kept, size)
  {
    if size <= |first| {
      CutInTwo(first[size..], second, size);
      assert (first + second)[size..] == first[size..] + second;
      assert (first + second)[..size] == first[..size];
      Associative([first[..size]], Blocks(first[size..], size), Blocks(Rest(first, size) + second, size));
    }
  }
}
