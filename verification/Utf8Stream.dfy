/**
 Incremental UTF-8 decoding of native token callbacks.

 `Front` is the decision that the standard validator makes at one position;
 `WellFormed` is the grammar of section 4 of RFC 3629.  The streaming decoder
 is shown to depend on the concatenation of the pieces only.
 */
module Utf8Streams {
  import opened Prelude

  // ---- the grammar ---------------------------------------------------------------

  /** The first two bytes of UTF8-3 and of UTF8-4. */
  predicate ThreeByteHead(a: Byte, b: Byte) {
    || (a == 0xE0 && 0xA0 <= b <= 0xBF)
    || (0xE1 <= a <= 0xEC && Continuation(b))
    || (a == 0xED && 0x80 <= b <= 0x9F)
    || (0xEE <= a <= 0xEF && Continuation(b))
  }

  predicate FourByteHead(a: Byte, b: Byte) {
    || (a == 0xF0 && 0x90 <= b <= 0xBF)
    || (0xF1 <= a <= 0xF3 && Continuation(b))
    || (a == 0xF4 && 0x80 <= b <= 0x8F)
  }

  /** `s` is one UTF8-char. */
  predicate IsChar(s: seq<Byte>) {
    || (|s| == 1 && s[0] <= 0x7F)
    || (|s| == 2 && 0xC2 <= s[0] <= 0xDF && Continuation(s[1]))
    || (|s| == 3 && ThreeByteHead(s[0], s[1]) && Continuation(s[2]))
    || (|s| == 4 && FourByteHead(s[0], s[1]) && Continuation(s[2]) && Continuation(s[3]))
  }

  function Flatten(chars: seq<seq<Byte>>): seq<Byte> {
    if chars == [] then [] else chars[0] + Flatten(chars[1..])
  }

  ghost predicate Spells(chars: seq<seq<Byte>>, s: seq<Byte>) {
    (forall c <- chars :: IsChar(c)) && Flatten(chars) == s
  }

  /** UTF8-octets: any number of UTF8-chars, one after the other. */
  ghost predicate WellFormed(s: seq<Byte>) { exists chars :: Spells(chars, s) }

  // ---- the validator -------------------------------------------------------------

  datatype Look = Complete(n: nat) | Incomplete | Invalid

  /** Number of bytes announced by a first byte; 0 for a byte that starts nothing. */
  function Width(b: Byte): nat {
    if b <= 0x7F then 1 else if 0xC2 <= b <= 0xDF then 2 else if 0xE0 <= b <= 0xEF then 3
    else if 0xF0 <= b <= 0xF4 then 4 else 0
  }

  predicate SecondOk(first: Byte, second: Byte) {
    if first == 0xE0 then 0xA0 <= second <= 0xBF
    else if first == 0xED then 0x80 <= second <= 0x9F
    else if first == 0xF0 then 0x90 <= second <= 0xBF
    else if first == 0xF4 then 0x80 <= second <= 0x8F
    else Continuation(second)
  }

  /** What stands at the front of `s`. */
  function Front(s: seq<Byte>): Look
    requires s != []
  {
    var w := Width(s[0]);
    if w == 0 then Invalid
    else if w == 1 then Complete(1)
    else if |s| == 1 then Incomplete
    else if !SecondOk(s[0], s[1]) then Invalid
    else if w == 2 then Complete(2)
    else if |s| == 2 then Incomplete
    else if !Continuation(s[2]) then Invalid
    else if w == 3 then Complete(3)
    else if |s| == 3 then Incomplete
    else if !Continuation(s[3]) then Invalid
    else Complete(4)
  }

  /** `valid_up_to`: where the leading run of complete characters ends. */
  function ValidUpTo(s: seq<Byte>): (n: nat)
    ensures n <= |s|
    decreases |s|
  {
    if s != [] && Front(s).Complete? && Front(s).n <= |s|
    then Front(s).n + ValidUpTo(s[Front(s).n..])
    else 0
  }

  function Text(s: seq<Byte>): seq<Byte> { s[..ValidUpTo(s)] }

  function Rest(s: seq<Byte>): seq<Byte> { s[ValidUpTo(s)..] }

  datatype Verdict = AllValid | Cut | Malformed

  /** `Ok`, an error without length, or an error with one. */
  function VerdictOf(s: seq<Byte>): Verdict {
    var r := Rest(s);
    if r == [] then AllValid else if Front(r).Invalid? then Malformed else Cut
  }

  // ---- the validator decides the grammar -------------------------------------------

  lemma FrontIsChar(s: seq<Byte>, n: nat)
    requires s != [] && n <= |s|
    ensures Front(s) == Complete(n) <==> n >= 1 && IsChar(s[..n])
    ensures Front(s).Complete? ==> 1 <= Front(s).n <= |s|
  {
    if n >= 1 { assert forall i :: 0 <= i < n ==> s[..n][i] == s[i]; }
  }

  lemma {:induction false} RestIsStuck(s: seq<Byte>)
    ensures Rest(s) == [] || !Front(Rest(s)).Complete?
    decreases |s|
  {
    if s != [] {
      FrontIsChar(s, 0);
      if Front(s).Complete? {
        var n := Front(s).n;
        RestIsStuck(s[n..]);
        assert Rest(s) == Rest(s[n..]);
      }
    }
  }

  lemma {:induction false} TextSpelled(s: seq<Byte>) returns (chars: seq<seq<Byte>>)
    ensures Spells(chars, Text(s))
    decreases |s|
  {
    chars := [];
    if s != [] {
      FrontIsChar(s, 0);
      if Front(s).Complete? {
        var n := Front(s).n;
        FrontIsChar(s, n);
        var rest := TextSpelled(s[n..]);
        chars := [s[..n]] + rest;
        assert Text(s) == s[..n] + Text(s[n..]);
      }
    }
  }

  lemma TextIsWellFormed(s: seq<Byte>)
    ensures WellFormed(Text(s))
  {
    var chars := TextSpelled(s);
  }

  lemma {:induction false} ConsumesChars(chars: seq<seq<Byte>>, t: seq<Byte>)
    requires forall c <- chars :: IsChar(c)
    ensures ValidUpTo(Flatten(chars) + t) == |Flatten(chars)| + ValidUpTo(t)
  {
    if chars == [] {
      assert Flatten(chars) + t == t;
    } else {
      var c, rest := chars[0], Flatten(chars[1..]) + t;
      var s := Flatten(chars) + t;
      assert IsChar(c);
      Associate(c, Flatten(chars[1..]), t);
      assert s == c + rest && s[..|c|] == c && s[|c|..] == rest;
      FrontIsChar(s, |c|);
      ConsumesChars(chars[1..], t);
    }
  }

  /** A well-formed string is consumed entirely, whatever follows it. */
  lemma ConsumesWellFormed(w: seq<Byte>, t: seq<Byte>)
    requires WellFormed(w)
    ensures ValidUpTo(w + t) == |w| + ValidUpTo(t)
  {
    var chars :| Spells(chars, w);
    ConsumesChars(chars, t);
  }

  lemma {:induction false} FlattenConcat(a: seq<seq<Byte>>, b: seq<seq<Byte>>)
    ensures Flatten(a + b) == Flatten(a) + Flatten(b)
  {
    if a == [] {
      assert a + b == b;
    } else {
      assert (a + b)[1..] == a[1..] + b;
      FlattenConcat(a[1..], b);
    }
  }

  lemma WellFormedConcat(a: seq<Byte>, b: seq<Byte>)
    requires WellFormed(a) && WellFormed(b)
    ensures WellFormed(a + b)
  {
    var x :| Spells(x, a);
    var y :| Spells(y, b);
    FlattenConcat(x, y);
    assert Spells(x + y, a + b);
  }

  /** `Text` is the longest well-formed prefix. */
  lemma TextIsLongest(s: seq<Byte>, k: nat)
    requires k <= |s| && WellFormed(s[..k])
    ensures k <= |Text(s)|
  {
    assert s == s[..k] + s[k..];
    ConsumesWellFormed(s[..k], s[k..]);
  }

  /** Splitting off the valid part first changes nothing. */
  lemma RestOfMore(s: seq<Byte>, t: seq<Byte>)
    ensures Text(s + t) == Text(s) + Text(Rest(s) + t)
    ensures Rest(s + t) == Rest(Rest(s) + t)
  {
    TextIsWellFormed(s);
    assert s + t == Text(s) + (Rest(s) + t);
    ConsumesWellFormed(Text(s), Rest(s) + t);
  }

  lemma FrontStaysInvalid(r: seq<Byte>, t: seq<Byte>)
    requires r != [] && Front(r).Invalid?
    ensures Front(r + t).Invalid?
  {
  }

  /** Once malformed, always malformed, and the text no longer grows. */
  lemma MalformedIsFinal(s: seq<Byte>, t: seq<Byte>)
    requires VerdictOf(s).Malformed?
    ensures VerdictOf(s + t).Malformed? && Text(s + t) == Text(s) && Rest(s + t) == Rest(s) + t
  {
    var r := Rest(s);
    RestOfMore(s, t);
    FrontStaysInvalid(r, t);
    assert ValidUpTo(r + t) == 0;
  }

  lemma FrontIncompleteShort(r: seq<Byte>)
    requires r != [] && Front(r).Incomplete?
    ensures |r| <= 3
  {
  }

  /** Some bytes complete any cut-off character. */
  lemma FrontCompletes(r: seq<Byte>) returns (t: seq<Byte>)
    requires r != [] && Front(r).Incomplete?
    ensures IsChar(r + t)
  {
    var w := Width(r[0]);
    if |r| == 1 {
      var second: Byte := if r[0] == 0xE0 then 0xA0 else if r[0] == 0xF0 then 0x90 else 0x80;
      t := if w == 2 then [second] else if w == 3 then [second, 0x80] else [second, 0x80, 0x80];
    } else {
      t := if |r| == 2 && w == 4 then [0x80, 0x80] else [0x80];
    }
  }

  lemma ValidMeansWellFormed(s: seq<Byte>)
    ensures VerdictOf(s).AllValid? <==> WellFormed(s)
  {
    TextIsWellFormed(s);
    if VerdictOf(s).AllValid? { assert s == Text(s) + Rest(s); }
    if WellFormed(s) {
      assert s + [] == s;
      ConsumesWellFormed(s, []);
    }
  }

  lemma MalformedCannotContinue(s: seq<Byte>, t: seq<Byte>)
    requires VerdictOf(s).Malformed?
    ensures !WellFormed(s + t)
  {
    MalformedIsFinal(s, t);
    ValidMeansWellFormed(s + t);
  }

  lemma CutCanContinue(s: seq<Byte>) returns (t: seq<Byte>)
    requires VerdictOf(s).Cut?
    ensures WellFormed(s + t) && 1 <= |Rest(s)| <= 3
  {
    var r := Rest(s);
    RestIsStuck(s);
    FrontIncompleteShort(r);
    t := FrontCompletes(r);
    assert Spells([r + t], r + t);
    TextIsWellFormed(s);
    WellFormedConcat(Text(s), r + t);
    assert s + t == Text(s) + (r + t);
  }

  /**
   The verdict read as a statement about the stream: valid bytes are well
   formed, malformed bytes cannot be continued to a well-formed stream, and
   cut-off ones can, though not by nothing.
   */
  lemma VerdictMeaning(s: seq<Byte>)
    ensures VerdictOf(s).AllValid? <==> WellFormed(s)
    ensures VerdictOf(s).Malformed? <==> forall t :: !WellFormed(s + t)
    ensures VerdictOf(s).Cut? <==> !WellFormed(s) && exists t :: WellFormed(s + t)
    ensures VerdictOf(s).Cut? ==> 1 <= |Rest(s)| <= 3
  {
    ValidMeansWellFormed(s);
    assert s + [] == s;
    if VerdictOf(s).Malformed? {
      forall t ensures !WellFormed(s + t) { MalformedCannotContinue(s, t); }
    } else if VerdictOf(s).Cut? {
      var t := CutCanContinue(s);
    }
  }

  // ---- the decoder -----------------------------------------------------------------

  datatype CallbackError = ReceiverClosed | InvalidUtf8 | IncompleteUtf8

  datatype Decoder = Decoder(pending: seq<Byte>, text: seq<Byte>, error: Option<CallbackError>)

  const FRESH := Decoder([], [], None)

  /** Appends decoded text; `open` is whether the stream receiver still listens. */
  function SendText(d: Decoder, text: seq<Byte>, open: bool): Decoder {
    if text == [] || d.error.Some? then d
    else d.(text := d.text + text, error := if open then None else Some(ReceiverClosed))
  }

  /** What `drain_complete_utf8` leaves behind. */
  function Drained(d: Decoder, open: bool): Decoder {
    if d.pending == [] || d.error.Some? then d
    else
      var d' := SendText(d.(pending := Rest(d.pending)), Text(d.pending), open);
      if d'.error.None? && VerdictOf(d.pending).Malformed? then d'.(error := Some(InvalidUtf8)) else d'
  }

  /** One token callback. */
  function Fed(d: Decoder, piece: seq<Byte>, open: bool): Decoder {
    if piece == [] then d else Drained(d.(pending := d.pending + piece), open)
  }

  /** The check that closes a generation. */
  function Closed(d: Decoder, open: bool): Decoder {
    var d' := Drained(d, open);
    if d'.error.None? && d'.pending != [] then d'.(error := Some(IncompleteUtf8)) else d'
  }

  class CallbackState {
    var pending: seq<Byte>
    var assistantText: seq<Byte>
    var callbackError: Option<CallbackError>

    ghost function View(): Decoder
      reads this
    {
      Decoder(pending, assistantText, callbackError)
    }

    constructor ()
      ensures View() == FRESH
    {
      pending, assistantText, callbackError := [], [], None;
    }

    method Send(text: seq<Byte>, open: bool)
      modifies `assistantText, `callbackError
      ensures View() == SendText(old(View()), text, open)
    {
      if text == [] || callbackError.Some? { return; }
      assistantText := assistantText + text;
      if !open { callbackError := Some(ReceiverClosed); }
    }

    /** Whatever is sent is well formed, so building the string from the validated prefix cannot fail. */
    method DrainCompleteUtf8(open: bool)
      modifies this
      ensures View() == Drained(old(View()), open)
    {
      ghost var start := View();
      ghost var rounds := 0;
      while true
        invariant rounds <= 1
        invariant rounds == 0 ==> View() == start
        invariant rounds == 1 ==> start.pending != [] && start.error.None? && Text(start.pending) != []
        invariant rounds == 1 ==> View() == SendText(start.(pending := Rest(start.pending)), Text(start.pending), open)
        decreases 1 - rounds
      {
        if pending == [] || callbackError.Some? { return; }
        var valid := ValidUpTo(pending);
        RestIsStuck(start.pending);
        TextIsWellFormed(pending);
        if valid == |pending| {
          var text := pending;
          assert text == Text(pending) && Rest(pending) == [];
          pending := [];
          Send(text, open);
          return;
        } else if valid > 0 {
          var text := pending[..valid];
          assert WellFormed(text);
          pending := pending[valid..];
          Send(text, open);
          rounds := rounds + 1;
        } else if !Front(pending).Invalid? {
          return;
        } else {
          callbackError := Some(InvalidUtf8);
          return;
        }
      }
    }

    method TokenCallback(piece: seq<Byte>, open: bool)
      modifies this
      ensures View() == Fed(old(View()), piece, open)
    {
      if |piece| > 0 {
        pending := pending + piece;
        DrainCompleteUtf8(open);
      }
    }

    method Finish(open: bool)
      modifies this
      ensures View() == Closed(old(View()), open)
    {
      DrainCompleteUtf8(open);
      if callbackError.None? && pending != [] {
        callbackError := Some(IncompleteUtf8);
      }
    }
  }

  // ---- any stream, cut anywhere ------------------------------------------------------

  /** A piece and whether the receiver was open when it arrived. */
  type Piece = (seq<Byte>, bool)

  function Concat(pieces: seq<Piece>): seq<Byte> {
    if pieces == [] then [] else Concat(pieces[..|pieces| - 1]) + pieces[|pieces| - 1].0
  }

  function FedAll(pieces: seq<Piece>): Decoder {
    if pieces == [] then FRESH
    else Fed(FedAll(pieces[..|pieces| - 1]), pieces[|pieces| - 1].0, pieces[|pieces| - 1].1)
  }

  lemma DrainedConserves(d: Decoder, open: bool)
    requires WellFormed(d.text)
    ensures var d' := Drained(d, open); d'.text + d'.pending == d.text + d.pending && WellFormed(d'.text)
  {
    var text, rest := Text(d.pending), Rest(d.pending);
    TextIsWellFormed(d.pending);
    WellFormedConcat(d.text, text);
    assert text + rest == d.pending;
    Associate(d.text, text, rest);
    if text == [] { assert rest == d.pending; }
  }

  lemma FedConserves(d: Decoder, piece: seq<Byte>, open: bool)
    requires WellFormed(d.text)
    ensures var d' := Fed(d, piece, open);
            d'.text + d'.pending == d.text + d.pending + piece && WellFormed(d'.text)
  {
    if piece == [] {
      assert d.text + d.pending + piece == d.text + d.pending;
    } else {
      Associate(d.text, d.pending, piece);
      DrainedConserves(d.(pending := d.pending + piece), open);
    }
  }

  /** No byte is lost, duplicated or reordered, and the text is always well formed, even after an error. */
  lemma {:induction false} NothingIsLost(pieces: seq<Piece>)
    ensures FedAll(pieces).text + FedAll(pieces).pending == Concat(pieces)
    ensures WellFormed(FedAll(pieces).text)
  {
    if pieces == [] {
      assert Spells([], []);
    } else {
      var front, last := pieces[..|pieces| - 1], pieces[|pieces| - 1];
      NothingIsLost(front);
      FedConserves(FedAll(front), last.0, last.1);
    }
  }

  /** A closed receiver stops the stream at the first text it would get; the text is kept, and nothing is decoded after an error. */
  lemma ErrorStopsDecoding(d: Decoder, piece: seq<Byte>, open: bool)
    requires piece != []
    ensures var d', text := Fed(d, piece, open), Text(d.pending + piece);
            && (d.error.None? && !open && text != [] ==> d'.error == Some(ReceiverClosed) && d'.text == d.text + text)
            && (d.error.None? && text == [] ==> d'.text == d.text && d'.error != Some(ReceiverClosed))
            && (d.error.Some? ==> d' == Decoder(d.pending + piece, d.text, d.error))
  {
  }

  /** While the receiver stays open, the state after any pieces is a function of their concatenation. */
  function Batch(s: seq<Byte>): Decoder {
    Decoder(Rest(s), Text(s), if VerdictOf(s).Malformed? then Some(InvalidUtf8) else None)
  }

  lemma BatchStep(s: seq<Byte>, piece: seq<Byte>)
    requires piece != []
    ensures Fed(Batch(s), piece, true) == Batch(s + piece)
  {
    if VerdictOf(s).Malformed? {
      MalformedIsFinal(s, piece);
    } else {
      RestOfMore(s, piece);
      var p := Rest(s) + piece;
      assert VerdictOf(s + piece) == VerdictOf(p);
      if Text(p) == [] { assert Text(s + piece) == Text(s); }
    }
  }

  lemma {:induction false} StreamingIsBatch(pieces: seq<Piece>)
    requires forall p <- pieces :: p.1
    ensures FedAll(pieces) == Batch(Concat(pieces))
  {
    if pieces != [] {
      var front, last := pieces[..|pieces| - 1], pieces[|pieces| - 1];
      StreamingIsBatch(front);
      if last.0 == [] {
        assert Concat(pieces) == Concat(front);
      } else {
        BatchStep(Concat(front), last.0);
      }
    }
  }

  /**
   Split invariance.  With an open receiver the text is the longest well-formed
   prefix of the stream, pending bytes without an error number at most three,
   and the final verdict says whether the stream is well formed, cut off or
   beyond repair.
   */
  lemma SplitInvariance(pieces: seq<Piece>, k: nat)
    requires forall p <- pieces :: p.1
    ensures var s, d, f := Concat(pieces), FedAll(pieces), Closed(FedAll(pieces), true);
            && d == Batch(s)
            && d.text <= s && WellFormed(d.text) && (k <= |s| && WellFormed(s[..k]) ==> k <= |d.text|)
            && (d.error.None? ==> |d.pending| <= 3)
            && (f.error == None <==> WellFormed(s))
            && (f.error == None ==> f.text == s)
            && (f.error == Some(InvalidUtf8) <==> forall t :: !WellFormed(s + t))
            && (f.error == Some(IncompleteUtf8) <==> !WellFormed(s) && exists t :: WellFormed(s + t))
  {
    var s, d := Concat(pieces), FedAll(pieces);
    StreamingIsBatch(pieces);
    TextIsWellFormed(s);
    VerdictMeaning(s);
    if k <= |s| && WellFormed(s[..k]) { TextIsLongest(s, k); }
    if d.error.None? && d.pending != [] { DrainAgain(s); }
  }

  /** Draining what is already drained does nothing. */
  lemma DrainAgain(s: seq<Byte>)
    requires Batch(s).error.None?
    ensures Drained(Batch(s), true) == Batch(s)
  {
    RestIsStuck(s);
    var r := Rest(s);
    if r != [] { assert ValidUpTo(r) == 0; }
  }
}
