/** Splitting a stream of words into overlapping windows. */
module Chunkers {
  datatype Chunk<T> = Chunk(index: nat, tokens: seq<T>)

  /** The windows of a non-empty stream, one stride apart; the first that reaches the end is the last. */
  function Windows<T>(tokens: seq<T>, window: nat, overlap: nat): (ws: seq<seq<T>>)
    requires window > overlap
    ensures ws != []
    decreases |tokens|
  {
    if |tokens| <= window then [tokens]
    else [tokens[..window]] + Windows(tokens[window - overlap..], window, overlap)
  }

  function Texts<T>(chunks: seq<Chunk<T>>): seq<seq<T>> {
    seq(|chunks|, i requires 0 <= i < |chunks| => chunks[i].tokens)
  }

  /** `split`, on the words of the text. */
  method Split<T(==)>(tokens: seq<T>, window: nat, overlap: nat) returns (chunks: seq<Chunk<T>>)
    requires window > overlap
    ensures Texts(chunks) == if tokens == [] then [] else Windows(tokens, window, overlap)
    ensures forall i :: 0 <= i < |chunks| ==> chunks[i].index == i
  {
    chunks := [];
    if tokens == [] { return; }
    var stride, start, index := window - overlap, 0, 0;
    ghost var all := Windows(tokens, window, overlap);
    while start < |tokens|
      invariant start < |tokens| && index == |chunks|
      invariant all == Texts(chunks) + Windows(tokens[start..], window, overlap)
      invariant forall i :: 0 <= i < |chunks| ==> chunks[i].index == i
      decreases |tokens| - start
    {
      var end := if start + window < |tokens| then start + window else |tokens|;
      ghost var rest := tokens[start..];
      ghost var done := Texts(chunks);
      chunks := chunks + [Chunk(index, tokens[start..end])];
      assert Texts(chunks) == done + [tokens[start..end]];
      if end == |tokens| {
        assert rest == tokens[start..end];
        break;
      }
      assert rest[..window] == tokens[start..end] && rest[stride..] == tokens[start + stride..];
      start := start + stride;
      index := index + 1;
    }
  }

  /** What each of these chunks adds after the overlap. */
  function Added<T>(ws: seq<seq<T>>, overlap: nat): seq<T> {
    if ws == [] then []
    else (if overlap <= |ws[0]| then ws[0][overlap..] else []) + Added(ws[1..], overlap)
  }

  lemma {:induction false} WindowsAdd<T>(tokens: seq<T>, window: nat, overlap: nat)
    requires window > overlap && |tokens| > overlap
    ensures Added(Windows(tokens, window, overlap), overlap) == tokens[overlap..]
    decreases |tokens|
  {
    var ws := Windows(tokens, window, overlap);
    if |tokens| <= window {
      assert ws[1..] == [];
    } else {
      var rest := tokens[window - overlap..];
      WindowsAdd(rest, window, overlap);
      assert ws[1..] == Windows(rest, window, overlap);
      assert rest[overlap..] == tokens[window..];
    }
  }

  /** Round trip: the first chunk and what every later one adds after its first `overlap` words rebuild the stream. */
  lemma {:induction false} SplitRoundTrip<T>(tokens: seq<T>, window: nat, overlap: nat)
    requires window > overlap
    ensures var ws := Windows(tokens, window, overlap); ws[0] + Added(ws[1..], overlap) == tokens
  {
    var ws := Windows(tokens, window, overlap);
    if |tokens| <= window {
      assert ws[1..] == [];
    } else {
      var rest := tokens[window - overlap..];
      WindowsAdd(rest, window, overlap);
      assert ws[1..] == Windows(rest, window, overlap);
      assert rest[overlap..] == tokens[window..];
    }
  }

  /** Every chunk but the last is a full window; adjacent chunks share `overlap` words, and the later one has more. */
  lemma {:induction false} ChunksOverlap<T>(tokens: seq<T>, window: nat, overlap: nat, i: nat)
    requires window > overlap && i + 1 < |Windows(tokens, window, overlap)|
    ensures var ws := Windows(tokens, window, overlap);
            && |ws[i]| == window && overlap < |ws[i + 1]| <= window
            && ws[i][window - overlap..] == ws[i + 1][..overlap]
    decreases |tokens|
  {
    var ws, rest := Windows(tokens, window, overlap), tokens[window - overlap..];
    if i > 0 {
      ChunksOverlap(rest, window, overlap, i - 1);
      assert ws[i] == Windows(rest, window, overlap)[i - 1] && ws[i + 1] == Windows(rest, window, overlap)[i];
    } else {
      var n := if |rest| <= window then |rest| else window;
      assert ws[1] == Windows(rest, window, overlap)[0] == rest[..n];
      assert rest[..n][..overlap] == tokens[window - overlap..window];
    }
  }
}
