/** Concatenation of string pieces, as Rust's `Vec<String>::concat`. */
module Text {

  /** The pieces joined in order; defined from the last piece so that pushing a piece is one unfolding. */
  function Concat(pieces: seq<string>): string
  {
    if pieces == [] then "" else Concat(pieces[..|pieces| - 1]) + pieces[|pieces| - 1]
  }

  lemma ConcatPush(pieces: seq<string>, piece: string)
    ensures Concat(pieces + [piece]) == Concat(pieces) + piece
  {
    assert (pieces + [piece])[..|pieces|] == pieces;
  }

  /** Extending a slice by one piece appends that piece. */
  lemma ConcatSnoc(s: seq<string>, i: nat, j: nat)
    requires i <= j < |s|
    ensures Concat(s[i..j + 1]) == Concat(s[i..j]) + s[j]
  {
    assert s[i..j + 1][..j - i] == s[i..j];
  }
}
