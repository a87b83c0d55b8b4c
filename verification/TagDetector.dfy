/**
 The bounded detector for reasoning tags in streamed text.

 Text is its UTF-8 bytes.  The detector keeps at most 64 of them; the
 specification scans the whole stream, leftmost tag first, alternating between
 the opening and the closing tag.
 */
module TagDetectors {
  import opened Prelude

  const TAG_WINDOW := 64

  /** The window less what a pending tag of eight bytes can reach back into it. */
  const MAX_CHUNK := 57

  /** The two delimiters. */
  datatype Tags = Tags(open: seq<Byte>, close: seq<Byte>) {
    function Sought(isOpen: bool): seq<Byte> { if isOpen then close else open }

    ghost predicate Valid() { ValidTag(open) && ValidTag(close) }
  }

  /** Non-empty, at most eight bytes, and none of them a continuation byte. */
  ghost predicate ValidTag(tag: seq<Byte>) {
    1 <= |tag| <= 8 && forall i :: 0 <= i < |tag| ==> !Continuation(tag[i])
  }

  /** `<think>` and `</think>`. */
  const THINK := Tags([60, 116, 104, 105, 110, 107, 62], [60, 47, 116, 104, 105, 110, 107, 62])

  lemma ThinkIsValid()
    ensures THINK.Valid()
  {
  }

  datatype Event = Opened | Closed

  function Transition(isOpen: bool): Event { if isOpen then Closed else Opened }

  // ---- the specification: one scan of the whole text -----------------------------

  predicate Occurs(tag: seq<Byte>, s: seq<Byte>, p: int) {
    0 <= p && p + |tag| <= |s| && forall i :: 0 <= i < |tag| ==> s[p + i] == tag[i]
  }

  /** `p` is the first occurrence at or after `from`. */
  predicate Leftmost(tag: seq<Byte>, s: seq<Byte>, from: nat, p: int) {
    from <= p && Occurs(tag, s, p) && forall q :: from <= q < p ==> !Occurs(tag, s, q)
  }

  function Find(tag: seq<Byte>, s: seq<Byte>, from: nat): (r: Option<nat>)
    ensures r.Some? ==> Leftmost(tag, s, from, r.value)
  {
    if exists p :: 0 <= p <= |s| && Leftmost(tag, s, from, p)
    then var p :| 0 <= p <= |s| && Leftmost(tag, s, from, p); Some(p)
    else None
  }

  lemma FindIs(tag: seq<Byte>, s: seq<Byte>, from: nat, p: nat)
    requires Leftmost(tag, s, from, p)
    ensures Find(tag, s, from) == Some(p)
  {
  }

  lemma {:induction false} FindMissesNothing(tag: seq<Byte>, s: seq<Byte>, from: nat, p: nat)
    requires from <= p && Occurs(tag, s, p)
    ensures Find(tag, s, from).Some?
  {
    if Leftmost(tag, s, from, p) {
      FindIs(tag, s, from, p);
    } else {
      var q :| from <= q < p && Occurs(tag, s, q);
      FindMissesNothing(tag, s, from, q);
    }
  }

  /** Whether a tag is open after the scan, where the last tag found ends, and the transitions in order. */
  datatype Scan = Scan(isOpen: bool, end: nat, events: seq<Event>)

  /** Where the next tag sought ends, if there is one. */
  function NextEnd(k: Tags, isOpen: bool, s: seq<Byte>, from: nat): (r: Option<nat>)
    ensures r.Some? ==> from < r.value <= |s|
  {
    var tag := k.Sought(isOpen);
    if tag == [] then None
    else match Find(tag, s, from)
      case None => None
      case Some(p) => Some(p + |tag|)
  }

  function Cons(e: Event, scan: Scan): Scan { Scan(scan.isOpen, scan.end, [e] + scan.events) }

  /** Says where the next tag ends, given whether one is open and where to start. */
  type Finder = (bool, nat) -> Option<nat>

  /** The alternating scan, for any way of finding the next tag. */
  function Walk(next: Finder, limit: nat, isOpen: bool, from: nat): (r: Scan)
    requires from <= limit
    ensures from <= r.end <= limit
    decreases limit - from
  {
    var end := next(isOpen, from);
    if end.Some? && from < end.value <= limit
    then Cons(Transition(isOpen), Walk(next, limit, !isOpen, end.value))
    else Scan(isOpen, from, [])
  }

  function Seeker(k: Tags, s: seq<Byte>): Finder { (isOpen, from) => NextEnd(k, isOpen, s, from) }

  /** The scan of `s` that starts at `from`. */
  function ScanFrom(k: Tags, isOpen: bool, s: seq<Byte>, from: nat): (r: Scan)
    requires from <= |s|
    ensures from <= r.end <= |s|
  {
    Walk(Seeker(k, s), |s|, isOpen, from)
  }

  function ScanText(k: Tags, text: seq<Byte>): (r: Scan)
    ensures r.end <= |text|
  {
    ScanFrom(k, false, text, 0)
  }

  // ---- what the scan means ------------------------------------------------------------

  /** Whether a tag is open after `n` more transitions. */
  predicate OpenAfter(isOpen: bool, n: nat) { isOpen != (n % 2 == 1) }

  /** From an open tag the transitions go closed, opened, closed and so on; from none, the other way round. */
  ghost predicate Alternate(events: seq<Event>, isOpen: bool) {
    forall i :: 0 <= i < |events| ==> events[i] == if OpenAfter(isOpen, i) then Closed else Opened
  }

  lemma {:induction false} WalkAlternates(next: Finder, limit: nat, isOpen: bool, from: nat)
    requires from <= limit
    ensures var r := Walk(next, limit, isOpen, from);
            Alternate(r.events, isOpen) && r.isOpen == OpenAfter(isOpen, |r.events|)
    decreases limit - from
  {
    var end := next(isOpen, from);
    if end.Some? && from < end.value <= limit {
      WalkAlternates(next, limit, !isOpen, end.value);
      var rest, all := Walk(next, limit, !isOpen, end.value).events, Walk(next, limit, isOpen, from).events;
      forall i | 0 <= i < |all| ensures all[i] == if OpenAfter(isOpen, i) then Closed else Opened {
        if i > 0 { assert all[i] == rest[i - 1] && OpenAfter(isOpen, i) == OpenAfter(!isOpen, i - 1); }
      }
    }
  }

  /** `end` is where the leftmost occurrence of the tag at or after `from` ends. */
  ghost predicate EndsLeftmost(tag: seq<Byte>, s: seq<Byte>, from: nat, end: nat) {
    end >= |tag| && Leftmost(tag, s, from, end - |tag|)
  }

  /** The ends of the tags: opening and closing in turn, each the leftmost after the one before, and none after the last. */
  ghost predicate IsParse(k: Tags, isOpen: bool, s: seq<Byte>, from: nat, ends: seq<nat>)
    decreases |ends|
  {
    var tag := if isOpen then k.close else k.open;
    if ends == [] then forall p :: from <= p ==> !Occurs(tag, s, p)
    else EndsLeftmost(tag, s, from, ends[0]) && IsParse(k, !isOpen, s, ends[0], ends[1..])
  }

  /** The scan is that parse: one transition for each tag, and its end is the end of the last. */
  lemma {:induction false} ScanIsParse(k: Tags, isOpen: bool, s: seq<Byte>, from: nat) returns (ends: seq<nat>)
    requires k.Valid() && from <= |s|
    ensures var r := ScanFrom(k, isOpen, s, from);
            && IsParse(k, isOpen, s, from, ends) && |ends| == |r.events|
            && r.end == if ends == [] then from else ends[|ends| - 1]
    decreases |s| - from
  {
    var tag, end := k.Sought(isOpen), NextEnd(k, isOpen, s, from);
    if end.Some? {
      var rest := ScanIsParse(k, !isOpen, s, end.value);
      ends := [end.value] + rest;
      assert ends[1..] == rest;
    } else {
      ends := [];
      forall p | from <= p ensures !Occurs(tag, s, p) {
        if Occurs(tag, s, p) { FindMissesNothing(tag, s, from, p); }
      }
    }
  }

  /** On a whole text: opened, closed, opened and so on, and a tag is open exactly after an odd number of them. */
  lemma ScanMeans(k: Tags, text: seq<Byte>, i: nat) returns (ends: seq<nat>)
    requires k.Valid()
    ensures var r := ScanText(k, text);
            && (i < |r.events| ==> r.events[i] == if i % 2 == 0 then Opened else Closed)
            && (r.isOpen <==> |r.events| % 2 == 1)
            && IsParse(k, false, text, 0, ends) && |ends| == |r.events|
  {
    WalkAlternates(Seeker(k, text), |text|, false, 0);
    ends := ScanIsParse(k, false, text, 0);
  }

  // ---- laws of the walk --------------------------------------------------------------

  /** The walk of `next` that goes on from an earlier one. */
  function Resume(next: Finder, limit: nat, first: Scan): Scan
    requires first.end <= limit
  {
    var second := Walk(next, limit, first.isOpen, first.end);
    Scan(second.isOpen, second.end, first.events + second.events)
  }

  lemma ResumeCons(next: Finder, limit: nat, e: Event, first: Scan)
    requires first.end <= limit
    ensures Resume(next, limit, Cons(e, first)) == Cons(e, Resume(next, limit, first))
  {
    var second := Walk(next, limit, first.isOpen, first.end);
    assert [e] + first.events + second.events == [e] + (first.events + second.events);
  }

  /** One more round of a walk in progress. */
  lemma ResumeOnce(next: Finder, limit: nat, first: Scan)
    requires first.end <= limit
    ensures var end := next(first.isOpen, first.end);
            Resume(next, limit, first) ==
            if end.Some? && first.end < end.value <= limit
            then Resume(next, limit, Scan(!first.isOpen, end.value, first.events + [Transition(first.isOpen)]))
            else first
  {
    var end := next(first.isOpen, first.end);
    if end.Some? && first.end < end.value <= limit {
      var rest := Walk(next, limit, !first.isOpen, end.value);
      assert first.events + ([Transition(first.isOpen)] + rest.events) == first.events + [Transition(first.isOpen)] + rest.events;
    }
  }

  /** A walk may be resumed by a finder that finds at least as much. */
  lemma {:induction false} WalkResumes(a: Finder, la: nat, b: Finder, lb: nat, isOpen: bool, from: nat)
    requires from <= la <= lb
    requires forall o, f: nat :: a(o, f).Some? && a(o, f).value <= la ==> b(o, f) == a(o, f)
    ensures Walk(b, lb, isOpen, from) == Resume(b, lb, Walk(a, la, isOpen, from))
    decreases la - from
  {
    var end := a(isOpen, from);
    if end.Some? && from < end.value <= la {
      WalkResumes(a, la, b, lb, !isOpen, end.value);
      ResumeCons(b, lb, Transition(isOpen), Walk(a, la, !isOpen, end.value));
    }
  }

  /** A walk ends where nothing more is found. */
  lemma {:induction false} WalkEnds(next: Finder, limit: nat, isOpen: bool, from: nat)
    requires from <= limit && forall o, f: nat :: next(o, f).Some? ==> f < next(o, f).value <= limit
    ensures var r := Walk(next, limit, isOpen, from); next(r.isOpen, r.end) == None
    decreases limit - from
  {
    var end := next(isOpen, from);
    if end.Some? { WalkEnds(next, limit, !isOpen, end.value); }
  }

  function Back(end: Option<nat>, d: nat): Option<nat> {
    if end.Some? && d <= end.value then Some(end.value - d) else None
  }

  /** A walk of a shifted finder is the shifted walk. */
  lemma {:induction false} WalkShifts(a: Finder, b: Finder, limit: nat, d: nat, isOpen: bool, from: nat)
    requires from <= limit && forall o, f: nat :: f <= limit ==> b(o, f) == Back(a(o, d + f), d)
    ensures var x, y := Walk(a, d + limit, isOpen, d + from), Walk(b, limit, isOpen, from);
            x.isOpen == y.isOpen && x.events == y.events && x.end == d + y.end
    decreases limit - from
  {
    var end := b(isOpen, from);
    if end.Some? && from < end.value <= limit { WalkShifts(a, b, limit, d, !isOpen, end.value); }
  }

  // ---- what the tag finder satisfies -------------------------------------------------

  /** Appending text does not move the next tag. */
  lemma EndIsStable(k: Tags, isOpen: bool, s: seq<Byte>, t: seq<Byte>, from: nat)
    requires NextEnd(k, isOpen, s, from).Some?
    ensures NextEnd(k, isOpen, s + t, from) == NextEnd(k, isOpen, s, from)
  {
    var tag := k.Sought(isOpen);
    var p := Find(tag, s, from).value;
    forall q | from <= q <= p ensures Occurs(tag, s + t, q) <==> Occurs(tag, s, q) {
      OccursInPart(tag, [], s, t, q);
      assert [] + s + t == s + t;
    }
    FindIs(tag, s + t, from, p);
  }

  /** An occurrence inside one part of a text is an occurrence in the text, and conversely. */
  lemma OccursInPart(tag: seq<Byte>, before: seq<Byte>, s: seq<Byte>, after: seq<Byte>, q: int)
    requires 0 <= q && q + |tag| <= |s|
    ensures Occurs(tag, before + s + after, |before| + q) <==> Occurs(tag, s, q)
  {
    var all := before + s + after;
    assert forall i :: 0 <= i < |s| ==> all[|before| + i] == s[i];
    if Occurs(tag, s, q) {
      forall i | 0 <= i < |tag| ensures all[|before| + q + i] == tag[i] { assert s[q + i] == tag[i]; }
    }
    if Occurs(tag, all, |before| + q) {
      forall i | 0 <= i < |tag| ensures s[q + i] == tag[i] { assert all[|before| + q + i] == tag[i]; }
    }
  }

  /** Dropping a prefix that the finder does not look at shifts it. */
  lemma EndShifts(k: Tags, isOpen: bool, s: seq<Byte>, d: nat, from: nat)
    requires d + from <= |s|
    ensures NextEnd(k, isOpen, s[d..], from) == Back(NextEnd(k, isOpen, s, d + from), d)
  {
    var tag, part := k.Sought(isOpen), s[d..];
    forall q | 0 <= q && q + |tag| <= |part| ensures Occurs(tag, part, q) <==> Occurs(tag, s, d + q) {
      OccursInPart(tag, s[..d], part, [], q);
      assert s[..d] + part + [] == s;
    }
    if Find(tag, s, d + from).Some? {
      var p := Find(tag, s, d + from).value;
      forall q | from <= q < p - d ensures !Occurs(tag, part, q) { assert !Occurs(tag, s, d + q); }
      FindIs(tag, part, from, p - d);
    } else if Find(tag, part, from).Some? {
      var p := Find(tag, part, from).value;
      assert Occurs(tag, part, p);
      FindMissesNothing(tag, s, d + from, d + p);
    }
  }

  /** Scanning may be resumed: a longer text continues from where the shorter scan ended. */
  lemma ScanResumes(k: Tags, s: seq<Byte>, t: seq<Byte>)
    ensures ScanText(k, s + t) == Resume(Seeker(k, s + t), |s + t|, ScanText(k, s))
  {
    forall o, f: nat | Seeker(k, s)(o, f).Some? ensures Seeker(k, s + t)(o, f) == Seeker(k, s)(o, f) {
      EndIsStable(k, o, s, t, f);
    }
    WalkResumes(Seeker(k, s), |s|, Seeker(k, s + t), |s + t|, false, 0);
  }

  lemma ScanLeavesNoTag(k: Tags, s: seq<Byte>)
    ensures var r := ScanText(k, s); NextEnd(k, r.isOpen, s, r.end) == None
  {
    WalkEnds(Seeker(k, s), |s|, false, 0);
  }

  lemma SeekerShifts(k: Tags, s: seq<Byte>, d: nat)
    requires d <= |s|
    ensures forall o, f: nat :: f <= |s| - d ==> Seeker(k, s[d..])(o, f) == Back(Seeker(k, s)(o, d + f), d)
  {
    forall o, f: nat | f <= |s| - d ensures Seeker(k, s[d..])(o, f) == Back(Seeker(k, s)(o, d + f), d) {
      EndShifts(k, o, s, d, f);
    }
  }

  lemma ScanShifts(k: Tags, isOpen: bool, s: seq<Byte>, d: nat)
    requires d <= |s|
    ensures var whole, part := ScanFrom(k, isOpen, s, d), ScanFrom(k, isOpen, s[d..], 0);
            whole.isOpen == part.isOpen && whole.events == part.events && whole.end == d + part.end
  {
    SeekerShifts(k, s, d);
    WalkShifts(Seeker(k, s), Seeker(k, s[d..]), |s| - d, d, isOpen, 0);
  }

  /** One round of a scan in progress, seen from the part of the text that is left. */
  lemma ScanRound(k: Tags, w: seq<Byte>, first: Scan)
    requires first.end <= |w|
    ensures var end := NextEnd(k, first.isOpen, w[first.end..], 0);
            if end.None? then Resume(Seeker(k, w), |w|, first) == first
            else
              && 0 < end.value <= |w| - first.end
              && w[first.end..][end.value..] == w[first.end + end.value..]
              && Resume(Seeker(k, w), |w|, first) == Resume(Seeker(k, w), |w|,
                   Scan(!first.isOpen, first.end + end.value, first.events + [Transition(first.isOpen)]))
  {
    EndShifts(k, first.isOpen, w, first.end, 0);
    ResumeOnce(Seeker(k, w), |w|, first);
  }

  // ---- the detector ----------------------------------------------------------------

  datatype Detector = Detector(window: seq<Byte>, isOpen: bool)

  predicate IsCharBoundary(s: seq<Byte>, i: nat) {
    i == 0 || i == |s| || (i < |s| && !Continuation(s[i]))
  }

  /** The first character boundary at or after `i`. */
  function RoundUp(s: seq<Byte>, i: nat): (r: nat)
    requires i <= |s|
    ensures i <= r <= |s| && IsCharBoundary(s, r)
    ensures forall j :: i <= j < r ==> Continuation(s[j])
    decreases |s| - i
  {
    if i < |s| && !IsCharBoundary(s, i) then RoundUp(s, i + 1) else i
  }

  /** How many bytes a window of this content forgets. */
  function Cut(s: seq<Byte>): nat {
    if |s| > TAG_WINDOW then RoundUp(s, |s| - TAG_WINDOW) else 0
  }

  function Trimmed(s: seq<Byte>): seq<Byte> { s[Cut(s)..] }

  /** One push: the detector it leaves and the transitions it sees. */
  function Pushed(k: Tags, d: Detector, chunk: seq<Byte>): (Detector, seq<Event>) {
    var w := Trimmed(d.window + chunk);
    var scan := ScanFrom(k, d.isOpen, w, 0);
    (Detector(w[scan.end..], scan.isOpen), scan.events)
  }

  /** What a push reports, and what that says of the tag before and after. */
  ghost predicate Reports(before: bool, after: bool, events: set<Event>) {
    && (events == {} ==> after == before)
    && (events == {Opened} ==> !before && after)
    && (events == {Closed} ==> before && !after)
    && (events != {} ==> (if before then Closed else Opened) in events)
  }

  lemma PushReports(k: Tags, d: Detector, chunk: seq<Byte>, events: set<Event>)
    requires forall e :: e in events <==> e in Pushed(k, d, chunk).1
    ensures Reports(d.isOpen, Pushed(k, d, chunk).0.isOpen, events)
  {
    var w, seen := Trimmed(d.window + chunk), Pushed(k, d, chunk).1;
    WalkAlternates(Seeker(k, w), |w|, d.isOpen, 0);
    assert seen != [] ==> seen[0] in events;
    assert |seen| >= 2 ==> seen[1] in events && seen[1] != seen[0];
  }

  class StreamTagDetector {
    const tags: Tags
    var window: seq<Byte>
    var isOpen: bool

    ghost function View(): Detector
      reads this
    {
      Detector(window, isOpen)
    }

    constructor (tags: Tags)
      ensures View() == Detector([], false) && this.tags == tags
    {
      this.tags := tags;
      window, isOpen := [], false;
    }

    method Trim()
      modifies `window
      ensures window == Trimmed(old(window))
    {
      if |window| > TAG_WINDOW {
        var dropAt := |window| - TAG_WINDOW;
        while dropAt < |window| && !IsCharBoundary(window, dropAt)
          invariant |window| - TAG_WINDOW <= dropAt <= |window|
          invariant RoundUp(window, dropAt) == RoundUp(window, |window| - TAG_WINDOW)
        {
          dropAt := dropAt + 1;
        }
        window := window[dropAt..];
      }
    }

    /** Removes the first tag sought and everything before it, if there is one. */
    method TakeTag() returns (found: bool)
      modifies this
      ensures var end := old(NextEnd(tags, isOpen, window, 0));
              && found == end.Some?
              && isOpen == (if found then !old(isOpen) else old(isOpen))
              && window == if found then old(window)[end.value..] else old(window)
    {
      var end := NextEnd(tags, isOpen, window, 0);
      found := end.Some?;
      if found {
        window := window[end.value..];
        isOpen := !isOpen;
      }
    }

    /** The scan of the window, one tag a round. */
    method ScanWindow() returns (events: set<Event>)
      modifies this
      ensures var scan := old(ScanFrom(tags, isOpen, window, 0));
              && View() == Detector(old(window)[scan.end..], scan.isOpen)
              && forall e :: e in events <==> e in scan.events
    {
      events := {};
      ghost var w, at, seen: seq<Event> := window, 0, [];
      ghost var whole := ScanFrom(tags, isOpen, window, 0);
      while true
        invariant 0 <= at <= |w| && window == w[at..]
        invariant whole == Resume(Seeker(tags, w), |w|, Scan(isOpen, at, seen))
        invariant forall e :: e in events <==> e in seen
        decreases |window|
      {
        var transition := Transition(isOpen);
        ghost var end := NextEnd(tags, isOpen, window, 0);
        ScanRound(tags, w, Scan(isOpen, at, seen));
        var found := TakeTag();
        if !found { break; }
        at := at + end.value;
        seen := seen + [transition];
        events := events + {transition};
      }
    }

    /** `TagEvents` is the set of transitions seen, as the runtime's bit set is. */
    method Push(chunk: seq<Byte>) returns (events: set<Event>)
      modifies this
      ensures View() == Pushed(tags, old(View()), chunk).0
      ensures forall e :: e in events <==> e in Pushed(tags, old(View()), chunk).1
      ensures Reports(old(isOpen), isOpen, events)
    {
      PushReports(tags, View(), chunk, set e: Event | e in Pushed(tags, View(), chunk).1);
      window := window + chunk;
      Trim();
      events := ScanWindow();
      assert events == set e: Event | e in Pushed(tags, old(View()), chunk).1;
    }

    method Reset()
      modifies this
      ensures View() == Detector([], false)
    {
      window, isOpen := [], false;
    }
  }

  // ---- refinement ------------------------------------------------------------------

  /** A byte of `s` already disagrees with a tag that would begin at `p`. */
  predicate CannotStart(tag: seq<Byte>, s: seq<Byte>, p: int) {
    exists i :: 0 <= i < |tag| && 0 <= p + i < |s| && s[p + i] != tag[i]
  }

  /** The window is a suffix of the text, and no tag can begin between `end` and it. */
  ghost predicate Remembers(tag: seq<Byte>, window: seq<Byte>, text: seq<Byte>, end: nat) {
    && end <= |text| - |window|
    && text[|text| - |window|..] == window
    && forall p :: end <= p < |text| - |window| ==> CannotStart(tag, text, p)
  }

  /** The detector agrees with the scan of the whole text, and can go on doing so. */
  ghost predicate Tracks(k: Tags, d: Detector, text: seq<Byte>) {
    && d.isOpen == ScanText(k, text).isOpen
    && Remembers(k.Sought(d.isOpen), d.window, text, ScanText(k, text).end)
  }

  lemma CannotStartWithin(tag: seq<Byte>, before: seq<Byte>, s: seq<Byte>, after: seq<Byte>, p: nat)
    requires CannotStart(tag, s, p)
    ensures CannotStart(tag, before + s + after, |before| + p)
  {
    var i :| 0 <= i < |tag| && 0 <= p + i < |s| && s[p + i] != tag[i];
    assert (before + s + after)[|before| + p + i] == s[p + i];
  }

  /** Trimming after a chunk of at most 57 bytes forgets only positions where no tag can begin. */
  lemma TrimIsSafe(tag: seq<Byte>, window: seq<Byte>, chunk: seq<Byte>, p: nat)
    requires ValidTag(tag) && |chunk| <= MAX_CHUNK && Find(tag, window, 0) == None
    requires p < Cut(window + chunk)
    ensures CannotStart(tag, window + chunk, p)
  {
    var w := window + chunk;
    if p < |w| - TAG_WINDOW {
      if Occurs(tag, window, p) { FindMissesNothing(tag, window, 0, p); }
      assert CannotStart(tag, window, p);
      CannotStartWithin(tag, [], window, chunk, p);
      assert [] + window + chunk == w;
    } else {
      assert w[p + 0] != tag[0];
    }
  }

  /** What a trimmed window remembers of a text extended by one chunk. */
  lemma TrimRemembers(k: Tags, isOpen: bool, window: seq<Byte>, text: seq<Byte>, end: nat, chunk: seq<Byte>)
    requires k.Valid() && |chunk| <= MAX_CHUNK
    requires Remembers(k.Sought(isOpen), window, text, end) && NextEnd(k, isOpen, text, end) == None
    ensures Remembers(k.Sought(isOpen), Trimmed(window + chunk), text + chunk, end)
  {
    var tag, w, all := k.Sought(isOpen), window + chunk, text + chunk;
    var before := text[..|text| - |window|];
    assert text == before + window && all == before + w;
    WindowHasNoTag(k, isOpen, window, text, end);
    forall p | end <= p < |before| + Cut(w) ensures CannotStart(tag, all, p) {
      if p < |before| {
        CannotStartWithin(tag, [], text, chunk, p);
        assert [] + text + chunk == all;
      } else {
        TrimIsSafe(tag, window, chunk, p - |before|);
        CannotStartWithin(tag, before, w, [], p - |before|);
        assert before + w + [] == all;
      }
    }
    assert all[|before| + Cut(w)..] == w[Cut(w)..];
  }

  lemma WindowHasNoTag(k: Tags, isOpen: bool, window: seq<Byte>, text: seq<Byte>, end: nat)
    requires k.Valid() && NextEnd(k, isOpen, text, end) == None
    requires end <= |text| - |window| && text[|text| - |window|..] == window
    ensures Find(k.Sought(isOpen), window, 0) == None
  {
    var tag, d := k.Sought(isOpen), |text| - |window|;
    if Find(tag, window, 0).Some? {
      var p := Find(tag, window, 0).value;
      OccursInPart(tag, text[..d], window, [], p);
      assert text[..d] + window + [] == text;
      FindMissesNothing(tag, text, end, d + p);
    }
  }

  /** Positions where no tag can begin may be skipped. */
  lemma EndSkips(k: Tags, isOpen: bool, s: seq<Byte>, from: nat, to: nat)
    requires from <= to <= |s|
    requires forall p :: from <= p < to ==> CannotStart(k.Sought(isOpen), s, p)
    ensures NextEnd(k, isOpen, s, from) == NextEnd(k, isOpen, s, to)
  {
    var tag := k.Sought(isOpen);
    forall q | from <= q < to ensures !Occurs(tag, s, q) { assert CannotStart(tag, s, q); }
    if Find(tag, s, to).Some? {
      FindIs(tag, s, from, Find(tag, s, to).value);
    } else if Find(tag, s, from).Some? {
      FindMissesNothing(tag, s, to, Find(tag, s, from).value);
    }
  }

  /** The scan of the whole text and chunk, in terms of the scan of the trimmed window. */
  lemma PushScan(k: Tags, isOpen: bool, text: seq<Byte>, end: nat, w: seq<Byte>)
    requires Remembers(k.Sought(isOpen), w, text, end)
    ensures var whole, part, start := ScanFrom(k, isOpen, text, end), ScanFrom(k, isOpen, w, 0), |text| - |w|;
            && whole.isOpen == part.isOpen && whole.events == part.events
            && whole.end == (if part.events == [] then end else start + part.end)
            && (part.events == [] ==> part.isOpen == isOpen && part.end == 0)
  {
    var start := |text| - |w|;
    EndSkips(k, isOpen, text, end, start);
    WalkSkips(Seeker(k, text), |text|, isOpen, end, start);
    ScanShifts(k, isOpen, text, start);
  }

  lemma WalkSkips(next: Finder, limit: nat, isOpen: bool, from: nat, to: nat)
    requires from <= to <= limit && next(isOpen, from) == next(isOpen, to)
    requires next(isOpen, to).Some? ==> to < next(isOpen, to).value <= limit
    ensures var x, y := Walk(next, limit, isOpen, from), Walk(next, limit, isOpen, to);
            && x.isOpen == y.isOpen && x.events == y.events
            && (if y.events == [] then x.end == from && y.end == to && y.isOpen == isOpen else x.end == y.end)
  {
  }

  /**
   One push of at most 57 bytes reports exactly the transitions that the chunk
   adds to the scan of the whole text, and keeps tracking it.
   */
  lemma PushRefines(k: Tags, d: Detector, text: seq<Byte>, chunk: seq<Byte>)
    requires k.Valid() && Tracks(k, d, text) && |chunk| <= MAX_CHUNK
    ensures Tracks(k, Pushed(k, d, chunk).0, text + chunk)
    ensures ScanText(k, text + chunk).events == ScanText(k, text).events + Pushed(k, d, chunk).1
  {
    var first, w, all := ScanText(k, text), Trimmed(d.window + chunk), text + chunk;
    ScanLeavesNoTag(k, text);
    TrimRemembers(k, d.isOpen, d.window, text, first.end, chunk);
    PushScan(k, d.isOpen, all, first.end, w);
    ScanResumes(k, text, chunk);
    var part := ScanFrom(k, d.isOpen, w, 0);
    PushRemembers(k.Sought(part.isOpen), w, all, first.end, part);
  }

  /** After a tag everything up to its end is done with; without one nothing has changed. */
  lemma PushRemembers(tag: seq<Byte>, w: seq<Byte>, text: seq<Byte>, end: nat, part: Scan)
    requires part.end <= |w| <= |text| && text[|text| - |w|..] == w
    requires part.events == [] ==> part.end == 0 && Remembers(tag, w, text, end)
    ensures Remembers(tag, w[part.end..], text, if part.events == [] then end else |text| - |w| + part.end)
  {
    var start := |text| - |w|;
    assert text[start + part.end..] == w[part.end..];
  }

  // ---- any stream, cut anywhere ------------------------------------------------------

  function Concat(chunks: seq<seq<Byte>>): seq<Byte> {
    if chunks == [] then [] else Concat(chunks[..|chunks| - 1]) + chunks[|chunks| - 1]
  }

  function PushedAll(k: Tags, chunks: seq<seq<Byte>>): Detector {
    if chunks == [] then Detector([], false)
    else Pushed(k, PushedAll(k, chunks[..|chunks| - 1]), chunks[|chunks| - 1]).0
  }

  ghost predicate Small(chunks: seq<seq<Byte>>, bound: nat) {
    forall c <- chunks :: |c| <= bound
  }

  /** After any chunks, and at the last of them, the detector agrees with the scan of the text so far. */
  ghost predicate Agrees(k: Tags, chunks: seq<seq<Byte>>) {
    && PushedAll(k, chunks).isOpen == ScanText(k, Concat(chunks)).isOpen
    && (chunks != [] ==>
          var before := chunks[..|chunks| - 1];
          ScanText(k, Concat(chunks)).events
            == ScanText(k, Concat(before)).events + Pushed(k, PushedAll(k, before), chunks[|chunks| - 1]).1)
  }

  /** For every chunking into pieces of at most 57 bytes, each push agrees with the scan of the text so far. */
  lemma {:induction false} DetectorRefinesScan(k: Tags, chunks: seq<seq<Byte>>)
    requires k.Valid() && Small(chunks, MAX_CHUNK)
    ensures Agrees(k, chunks) && Tracks(k, PushedAll(k, chunks), Concat(chunks))
  {
    if chunks == [] {
      assert k.Sought(false) != [];
      assert ScanText(k, []) == Scan(false, 0, []);
    } else {
      var before, last := chunks[..|chunks| - 1], chunks[|chunks| - 1];
      DetectorRefinesScan(k, before);
      PushRefines(k, PushedAll(k, before), Concat(before), last);
    }
  }

  // ---- the bound is exact ------------------------------------------------------------

  /** What of the two delimiters the counterexample uses: lengths, first two bytes, and the last of the closing one. */
  ghost predicate LikeThink(k: Tags) {
    && |k.open| == 7 && k.open[0] == 60 && k.open[1] == 116
    && |k.close| == 8 && k.close[0] == 60 && k.close[1] == 47 && k.close[7] == 62
    && forall i :: 1 <= i < 8 ==> k.close[i] != 60 && !Continuation(k.close[i])
  }

  /** The opening tag; the closing tag without its last byte; that byte and filler, `n` bytes in all. */
  ghost predicate Hiding(k: Tags, n: nat, chunks: seq<seq<Byte>>) {
    && LikeThink(k) && |chunks| == 3
    && chunks[0] == k.open
    && chunks[1] == k.close[..7]
    && |chunks[2]| == n > 0 && chunks[2][0] == k.close[7]
    && forall i :: 1 <= i < n ==> chunks[2][i] == 120
  }

  lemma NoTag(k: Tags, isOpen: bool, s: seq<Byte>, from: nat)
    requires LikeThink(k) && from <= |s| && forall i :: from < i < |s| ==> s[i] != 116 && s[i] != 47
    ensures ScanFrom(k, isOpen, s, from) == Scan(isOpen, from, [])
  {
    var tag := k.Sought(isOpen);
    assert tag[1] == 116 || tag[1] == 47;
  }

  /** A push into an empty window is a scan of the chunk. */
  lemma PushShort(k: Tags, d: Detector, chunk: seq<Byte>)
    requires d.window == [] && |chunk| <= TAG_WINDOW
    ensures var scan := ScanFrom(k, d.isOpen, chunk, 0);
            Pushed(k, d, chunk).0 == Detector(chunk[scan.end..], scan.isOpen)
  {
    assert Trimmed(d.window + chunk) == chunk;
  }

  lemma PushOpenTag(k: Tags)
    requires LikeThink(k)
    ensures Pushed(k, Detector([], false), k.open).0 == Detector([], true)
  {
    FindIs(k.open, k.open, 0, 0);
    NoTag(k, true, k.open, 7);
    assert ScanFrom(k, false, k.open, 0) == Scan(true, 7, [Opened]);
    PushShort(k, Detector([], false), k.open);
  }

  lemma PushStub(k: Tags)
    requires LikeThink(k)
    ensures Pushed(k, Detector([], true), k.close[..7]).0 == Detector(k.close[..7], true)
  {
    PushShort(k, Detector([], true), k.close[..7]);
  }

  /** Trimming the stub and a longer chunk forgets the first byte of the stub, so no tag is left. */
  lemma StubIsForgotten(k: Tags, n: nat, chunks: seq<seq<Byte>>)
    requires Hiding(k, n, chunks) && n > MAX_CHUNK
    ensures Pushed(k, Detector(chunks[1], true), chunks[2]).0.isOpen
  {
    var w := chunks[1] + chunks[2];
    var s := Trimmed(w);
    forall i | 0 <= i < |s| ensures s[i] != 60 { assert s[i] == w[Cut(w) + i]; }
    assert k.close[0] == 60;
  }

  lemma ThreePushes(k: Tags, chunks: seq<seq<Byte>>, d: Detector, d': Detector)
    requires |chunks| == 3 && Pushed(k, Detector([], false), chunks[0]).0 == d && Pushed(k, d, chunks[1]).0 == d'
    ensures PushedAll(k, chunks) == Pushed(k, d', chunks[2]).0
  {
    var one, two := chunks[..1], chunks[..2];
    assert two[..1] == one && one[..0] == [];
    assert PushedAll(k, one) == d;
    assert PushedAll(k, two) == d';
  }

  /** Every longer chunk can hide a closing tag. */
  lemma LongerChunksMiss(k: Tags, n: nat, chunks: seq<seq<Byte>>)
    requires Hiding(k, n, chunks) && n > MAX_CHUNK
    ensures PushedAll(k, chunks).isOpen
  {
    PushOpenTag(k);
    PushStub(k);
    ThreePushes(k, chunks, Detector([], true), Detector(chunks[1], true));
    StubIsForgotten(k, n, chunks);
  }

  /** The whole text is an opening tag, a closing tag and filler, so its scan ends closed. */
  lemma HidingIsClosed(k: Tags, n: nat, chunks: seq<seq<Byte>>)
    requires Hiding(k, n, chunks)
    ensures !ScanText(k, Concat(chunks)).isOpen
  {
    var one, two := chunks[..1], chunks[..2];
    assert two[..1] == one && one[..0] == [];
    var w := k.open + k.close[..7] + chunks[2];
    assert Concat(one) == k.open;
    assert Concat(two) == k.open + k.close[..7];
    assert Concat(chunks) == w;
    NoTag(k, false, w, 15);
    forall i | 0 <= i < 8 ensures w[7 + i] == k.close[i] {}
    FindIs(k.close, w, 7, 7);
    assert ScanFrom(k, true, w, 7) == Scan(false, 15, [Closed]);
    FindIs(k.open, w, 0, 0);
  }

  lemma HidingExists(k: Tags, n: nat) returns (chunks: seq<seq<Byte>>)
    requires LikeThink(k) && n > MAX_CHUNK
    ensures Hiding(k, n, chunks) && Small(chunks, n)
  {
    chunks := [k.open, k.close[..7], [k.close[7]] + seq(n - 1, _ => 120)];
  }

  lemma BoundIsExactFor(k: Tags, bound: nat)
    requires k.Valid() && LikeThink(k)
    ensures (forall chunks :: Small(chunks, bound) ==> Agrees(k, chunks)) <==> bound <= MAX_CHUNK
  {
    if bound <= MAX_CHUNK {
      forall chunks | Small(chunks, bound) ensures Agrees(k, chunks) { DetectorRefinesScan(k, chunks); }
    } else {
      var chunks := HidingExists(k, bound);
      LongerChunksMiss(k, bound, chunks);
      HidingIsClosed(k, bound, chunks);
      assert Small(chunks, bound) && !Agrees(k, chunks);
    }
  }

  /** The detector agrees with the scan on all chunkings into pieces of at most `bound` bytes exactly when `bound <= 57`. */
  lemma BoundIsExact(bound: nat)
    ensures (forall chunks :: Small(chunks, bound) ==> Agrees(THINK, chunks)) <==> bound <= MAX_CHUNK
  {
    ThinkIsValid();
    BoundIsExactFor(THINK, bound);
  }
}
