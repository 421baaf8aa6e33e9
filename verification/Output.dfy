/**
  Two-stage output capture. The runtime keeps what fits of each message as it arrives; the scheduler
  cuts the result to the configured limit. Lengths and limits are in bytes of UTF-8, and both stages
  only cut between characters (section 3 of RFC 3629).
*/
module Output {
  import opened Prelude

  // ----- UTF-8 -----

  function Width(c: char): (w: nat)
    ensures 1 <= w <= 4
  {
    var n := c as int;
    if n < 0x80 then 1 else if n < 0x800 then 2 else if n < 0x1_0000 then 3 else 4
  }

  function Trail(n: nat): nat {
    0x80 + n % 0x40
  }

  function Encode(c: char): (b: seq<nat>)
    ensures |b| == Width(c)
  {
    var n := c as int;
    match Width(c)
    case 1 => [n]
    case 2 => [0xC0 + n / 0x40, Trail(n)]
    case 3 => [0xE0 + n / 0x1000, Trail(n / 0x40), Trail(n)]
    case _ => [0xF0 + n / 0x4_0000, Trail(n / 0x1000), Trail(n / 0x40), Trail(n)]
  }

  lemma SixBitGroups(n: nat)
    ensures n == n / 0x40 * 0x40 + n % 0x40
    ensures n / 0x1000 == n / 0x40 / 0x40 && n / 0x4_0000 == n / 0x1000 / 0x40
  {
  }

  /** The number a character's bytes stand for: the payload of the first byte, then six bits of each other. */
  function Decoded(b: seq<int>): int {
    if |b| == 1 then b[0]
    else if |b| == 2 then (b[0] - 0xC0) * 0x40 + (b[1] - 0x80)
    else if |b| == 3 then ((b[0] - 0xE0) * 0x40 + (b[1] - 0x80)) * 0x40 + (b[2] - 0x80)
    else if |b| == 4 then (((b[0] - 0xF0) * 0x40 + (b[1] - 0x80)) * 0x40 + (b[2] - 0x80)) * 0x40 + (b[3] - 0x80)
    else -1
  }

  /** The bytes are those of the standard: the shortest form of each number, which reads back as it. */
  lemma EncodingIsStandard(c: char)
    ensures Decoded(Encode(c)) == c as int
    ensures |Encode(c)|
            == if c as int <= 0x7F then 1 else if c as int <= 0x7FF then 2 else if c as int <= 0xFFFF then 3 else 4
  {
    var n := c as int;
    SixBitGroups(n);
    SixBitGroups(n / 0x40);
    SixBitGroups(n / 0x1000);
  }

  function Bytes(s: string): seq<nat> {
    if s == "" then [] else Encode(s[0]) + Bytes(s[1..])
  }

  function Len(s: string): nat {
    if s == "" then 0 else Width(s[0]) + Len(s[1..])
  }

  /** How the standard library tells: the byte at `i` is not a continuation byte. */
  predicate IsCharBoundary(s: string, i: nat) {
    var b := Bytes(s);
    i == 0 || i == |b| || (i < |b| && !(0x80 <= b[i] < 0xC0))
  }

  /** What it means: some prefix of `s` is `i` bytes long. */
  predicate Boundary(s: string, i: nat) {
    i == 0 || (s != "" && i >= Width(s[0]) && Boundary(s[1..], i - Width(s[0])))
  }

  lemma {:induction false} BytesLen(s: string)
    ensures |Bytes(s)| == Len(s)
  {
    if s != "" { BytesLen(s[1..]); }
  }

  lemma LeadAndTrail(c: char, i: nat)
    requires i < Width(c)
    ensures 0x80 <= Encode(c)[i] < 0xC0 <==> i > 0
  {
  }

  lemma {:induction false} BoundaryIsPrefix(s: string, i: nat)
    ensures IsCharBoundary(s, i) <==> Boundary(s, i)
  {
    BytesLen(s);
    if s != "" && i > 0 {
      var w := Width(s[0]);
      BytesLen(s[1..]);
      if i < w {
        LeadAndTrail(s[0], i);
      } else {
        BoundaryIsPrefix(s[1..], i - w);
        if i < |Bytes(s)| { assert Bytes(s)[i] == Bytes(s[1..])[i - w]; }
        if i == w && i < |Bytes(s)| { LeadAndTrail(s[1], 0); }
      }
    }
  }

  // ----- cutting -----

  /** The longest prefix of `s` that fits into `max` bytes. */
  function Cut(s: string, max: nat): string {
    if s == "" || Width(s[0]) > max then "" else [s[0]] + Cut(s[1..], max - Width(s[0]))
  }

  lemma {:induction false} CutIsLongestPrefix(s: string, max: nat, k: nat)
    requires k <= |s|
    ensures Cut(s, max) <= s && Len(Cut(s, max)) <= max
    ensures Len(s[..k]) <= max <==> k <= |Cut(s, max)|
  {
    if s != "" && Width(s[0]) <= max {
      var rest := Cut(s[1..], max - Width(s[0]));
      CutIsLongestPrefix(s[1..], max - Width(s[0]), if k > 0 then k - 1 else 0);
      assert ([s[0]] + rest)[1..] == rest;
      assert s == [s[0]] + s[1..];
      if k > 0 { assert s[..k][1..] == s[1..][..k - 1]; }
    }
  }

  /** The prefix of `s` of `i` bytes. */
  function Slice(s: string, i: nat): string
    requires Boundary(s, i)
  {
    if i == 0 then "" else [s[0]] + Slice(s[1..], i - Width(s[0]))
  }

  /** The largest boundary within the limit delimits the longest prefix that fits. */
  lemma {:induction false} LargestBoundaryCuts(s: string, max: nat, i: nat)
    requires i <= max && Boundary(s, i) && forall j :: i < j <= max ==> !Boundary(s, j)
    ensures Slice(s, i) == Cut(s, max)
  {
    if s != "" && Width(s[0]) <= max {
      var w := Width(s[0]);
      assert Boundary(s[1..], w - w);
      assert Boundary(s, w);
      assert !(i < w <= max);
      forall j | i - w < j <= max - w ensures !Boundary(s[1..], j) {
        assert !Boundary(s, j + w);
      }
      LargestBoundaryCuts(s[1..], max - w, i - w);
    }
  }

  /** The step-by-step search both stages share. */
  method FindBoundary(s: string, max: nat) returns (boundary: nat)
    ensures boundary <= max && Boundary(s, boundary) && Slice(s, boundary) == Cut(s, max)
  {
    boundary := max;
    BoundaryIsPrefix(s, boundary);
    while boundary > 0 && !IsCharBoundary(s, boundary)
      invariant 0 <= boundary <= max
      invariant IsCharBoundary(s, boundary) <==> Boundary(s, boundary)
      invariant forall j :: boundary < j <= max ==> !Boundary(s, j)
    {
      boundary := boundary - 1;
      BoundaryIsPrefix(s, boundary);
    }
    LargestBoundaryCuts(s, max, boundary);
  }

  lemma {:induction false} CutKeepsWhatFits(s: string, max: nat)
    requires Len(s) <= max
    ensures Cut(s, max) == s
  {
    if s != "" {
      CutKeepsWhatFits(s[1..], max - Width(s[0]));
    }
  }

  /** The second stage: the text and whether anything was lost. */
  function Truncated(s: string, max: nat): (string, bool) {
    if Len(s) <= max then (s, false) else (Cut(s, max), true)
  }

  method TruncateOutput(output: string, max: nat) returns (text: string, truncated: bool)
    ensures (text, truncated) == Truncated(output, max)
  {
    BytesLen(output);
    if |Bytes(output)| <= max { return output, false; }
    var boundary := FindBoundary(output, max);
    return Slice(output, boundary), true;
  }

  method TruncateToBytes(value: string, max: nat) returns (text: string)
    ensures text == Cut(value, max)
  {
    BytesLen(value);
    if |Bytes(value)| <= max {
      CutKeepsWhatFits(value, max);
      return value;
    }
    var boundary := FindBoundary(value, max);
    return Slice(value, boundary);
  }

  // ----- the first stage -----

  function Kept(output: string, text: string, cap: nat): string {
    output + Cut(text, if Len(output) < cap then cap - Len(output) else 0)
  }

  function Captured(chunks: seq<string>, cap: nat): string {
    if chunks == [] then "" else Kept(Captured(chunks[..|chunks| - 1], cap), chunks[|chunks| - 1], cap)
  }

  class Capture {
    const cap: nat
    var output: string

    constructor (cap: nat)
      ensures this.cap == cap && output == ""
    {
      this.cap := cap;
      output := "";
    }

    /** Handles one message delta; a delta of which nothing fits is not even reported. */
    method Inbound(text: string) returns (reported: Option<string>)
      modifies this
      ensures output == Kept(old(output), text, cap)
      ensures reported == if output == old(output) then None else Some(output[|old(output)|..])
    {
      BytesLen(output);
      var room := if |Bytes(output)| < cap then cap - |Bytes(output)| else 0;
      var kept := TruncateToBytes(text, room);
      output := output + kept;
      assert output[|output| - |kept|..] == kept;
      if kept == "" {
        assert output == old(output);
        return None;
      }
      return Some(kept);
    }
  }

  // ----- both stages together -----

  lemma {:induction false} LenAppend(a: string, b: string)
    ensures Len(a + b) == Len(a) + Len(b)
  {
    if a == "" {
      assert a + b == b;
    } else {
      LenAppend(a[1..], b);
      Unshift(a, b);
    }
  }

  lemma {:induction false} CutAppend(a: string, b: string, max: nat)
    ensures Cut(a + b, max) == if Len(a) <= max then a + Cut(b, max - Len(a)) else Cut(a, max)
  {
    if a == "" {
      assert a + b == b && a + Cut(b, max) == Cut(b, max);
    } else if Width(a[0]) <= max {
      CutAppend(a[1..], b, max - Width(a[0]));
      Unshift(a, b);
      if Len(a) <= max { Unshift(a, Cut(b, max - Len(a))); }
    }
  }

  /** A text that does not fit fills all but at most three bytes. */
  lemma {:induction false} CutFillsUp(s: string, max: nat)
    requires Len(s) > max
    ensures Len(Cut(s, max)) + 4 > max
  {
    if s != "" && Width(s[0]) <= max {
      CutFillsUp(s[1..], max - Width(s[0]));
      assert ([s[0]] + Cut(s[1..], max - Width(s[0])))[1..] == Cut(s[1..], max - Width(s[0]));
    }
  }

  /**
    What the first stage keeps. It is everything while that fits. Later it need not be a prefix of the
    real output, but it still begins with the longest prefix that fits.
  */
  lemma {:induction false} CaptureBeginsWithCut(chunks: seq<string>, cap: nat)
    ensures Cut(Concat(chunks), cap) <= Captured(chunks, cap)
    ensures Len(Concat(chunks)) <= cap ==> Captured(chunks, cap) == Concat(chunks)
  {
    if chunks != [] {
      var n := |chunks| - 1;
      CaptureBeginsWithCut(chunks[..n], cap);
      KeptBeginsWithCut(Concat(chunks[..n]), Captured(chunks[..n], cap), chunks[n], cap);
    }
  }

  lemma KeptBeginsWithCut(full: string, output: string, chunk: string, cap: nat)
    requires Cut(full, cap) <= output && (Len(full) <= cap ==> output == full)
    ensures Cut(full + chunk, cap) <= Kept(output, chunk, cap)
    ensures Len(full + chunk) <= cap ==> Kept(output, chunk, cap) == full + chunk
  {
    LenAppend(full, chunk);
    CutAppend(full, chunk, cap);
    if Len(full + chunk) <= cap { CutKeepsWhatFits(chunk, cap - Len(full)); }
  }

  lemma {:induction false} CaptureFits(chunks: seq<string>, cap: nat)
    ensures Len(Captured(chunks, cap)) <= cap && |Captured(chunks, cap)| <= |Concat(chunks)|
  {
    if chunks != [] {
      var n := |chunks| - 1;
      CaptureFits(chunks[..n], cap);
      var output := Captured(chunks[..n], cap);
      CutIsLongestPrefix(chunks[n], cap - Len(output), 0);
      LenAppend(output, Cut(chunks[n], cap - Len(output)));
    }
  }

  /** Once something was lost, no later message begins with a character that would still fit. */
  ghost predicate StaysFull(chunks: seq<string>, cap: nat) {
    forall k {:trigger StaysFullAt(chunks, cap, k)} :: 0 <= k < |chunks| ==> StaysFullAt(chunks, cap, k)
  }

  predicate StaysFullAt(chunks: seq<string>, cap: nat, k: nat)
    requires k < |chunks|
  {
    var before := Concat(chunks[..k]);
    Len(before) > cap && chunks[k] != "" ==> Len(Cut(before, cap)) + Width(chunks[k][0]) > cap
  }

  lemma StaysFullStep(chunks: seq<string>, cap: nat)
    requires chunks != []
    ensures StaysFull(chunks, cap) <==> StaysFull(chunks[..|chunks| - 1], cap) && StaysFullAt(chunks, cap, |chunks| - 1)
  {
    var init := chunks[..|chunks| - 1];
    forall k | 0 <= k < |init| ensures StaysFullAt(init, cap, k) <==> StaysFullAt(chunks, cap, k) {
      assert init[..k] == chunks[..k] && init[k] == chunks[k];
    }
    if StaysFull(chunks, cap) {
      forall k | 0 <= k < |init| ensures StaysFullAt(init, cap, k) { assert StaysFullAt(chunks, cap, k); }
    }
    if StaysFull(init, cap) && StaysFullAt(chunks, cap, |chunks| - 1) {
      forall k | 0 <= k < |chunks| ensures StaysFullAt(chunks, cap, k) {
        if k < |init| { assert StaysFullAt(init, cap, k); }
      }
    }
  }

  /** A prefix of an overflowing text that begins with everything that fits, and fits, is just that. */
  lemma PrefixThatFits(s: string, p: string, cap: nat)
    requires p <= s && Len(p) <= cap && Cut(s, cap) <= p
    ensures p == Cut(s, cap)
  {
    CutIsLongestPrefix(s, cap, |p|);
    assert s[..|p|] == p;
  }

  /** What follows the part that fits is a character that does not. */
  lemma {:induction false} NextIsTooWide(s: string, cap: nat)
    requires Len(s) > cap
    ensures |Cut(s, cap)| < |s| && Len(Cut(s, cap)) + Width(s[|Cut(s, cap)|]) > cap
  {
    if Width(s[0]) <= cap {
      var rest := Cut(s[1..], cap - Width(s[0]));
      NextIsTooWide(s[1..], cap - Width(s[0]));
      assert Cut(s, cap)[1..] == rest && s[1..][|rest|] == s[|rest| + 1];
    }
  }

  lemma FullCaptureGrows(full: string, chunk: string, cap: nat)
    requires Len(full) > cap
    ensures var p := Cut(full, cap);
            Kept(p, chunk, cap) <= full + chunk <==> chunk == "" || Len(p) + Width(chunk[0]) > cap
  {
    var p := Cut(full, cap);
    CutIsLongestPrefix(full, cap, 0);
    NextIsTooWide(full, cap);
    if chunk == "" || Len(p) + Width(chunk[0]) > cap {
      assert Kept(p, chunk, cap) == p;
    } else {
      assert Kept(p, chunk, cap)[|p|] == chunk[0] && (full + chunk)[|p|] == full[|p|];
    }
  }

  /** Exactly when the capture is a prefix of the real output. */
  lemma {:induction false} CaptureIsPrefixIff(chunks: seq<string>, cap: nat)
    ensures Captured(chunks, cap) <= Concat(chunks) <==> StaysFull(chunks, cap)
  {
    if chunks != [] {
      var n := |chunks| - 1;
      var init, full, output := chunks[..n], Concat(chunks[..n]), Captured(chunks[..n], cap);
      CaptureIsPrefixIff(init, cap);
      CaptureBeginsWithCut(init, cap);
      CaptureBeginsWithCut(chunks, cap);
      StaysFullStep(chunks, cap);
      CaptureFits(init, cap);
      if Len(full) <= cap {
        FittingCaptureGrows(full, chunks[n], cap);
      } else if output <= full {
        PrefixThatFits(full, output, cap);
        FullCaptureGrows(full, chunks[n], cap);
      } else {
        StrayStaysStray(output, full, Cut(chunks[n], cap - Len(output)), chunks[n]);
      }
    }
  }

  lemma FittingCaptureGrows(full: string, chunk: string, cap: nat)
    requires Len(full) <= cap
    ensures Kept(full, chunk, cap) <= full + chunk
  {
    CutIsLongestPrefix(chunk, cap - Len(full), 0);
  }

  lemma StrayStaysStray(p: string, s: string, more: string, tail: string)
    requires !(p <= s) && |p| <= |s|
    ensures !(p + more <= s + tail)
  {
    assert s[..|p|] != p;
    assert (p + more)[..|p|] == p && (s + tail)[..|p|] == s[..|p|];
  }

  /** Small characters of a later message may fill the room a wide character left. */
  lemma CaptureNeedNotBeAPrefix()
    ensures Captured(["\U{4F60}\U{597D}\U{4E16}", "xyz"], 7) == "\U{4F60}\U{597D}x"
    ensures !(Captured(["\U{4F60}\U{597D}\U{4E16}", "xyz"], 7) <= Concat(["\U{4F60}\U{597D}\U{4E16}", "xyz"]))
  {
    var wide, kept := "\U{4F60}\U{597D}\U{4E16}", "\U{4F60}\U{597D}";
    assert wide[1..] == "\U{597D}\U{4E16}" && wide[1..][1..] == "\U{4E16}" && kept[1..] == "\U{597D}"
        && kept[1..][1..] == "";
    assert Cut(wide, 7) == kept && Len(kept) == 6;
    assert "xyz"[1..] == "yz" && Cut("xyz", 1) == "x";
    var none: seq<string> := [];
    assert [wide, "xyz"][..1] == [wide] && [wide][..0] == none;
    assert Captured([wide], 7) == "" + kept == kept;
    assert Concat([wide]) == "" + wide == wide;
    assert Concat([wide, "xyz"]) == wide + "xyz";
    assert (wide + "xyz")[2] != (kept + "x")[2];
  }

  lemma CutPrefix(s: string, p: string, max: nat)
    requires p <= s && Len(p) > max
    ensures Cut(s, max) == Cut(p, max) && Len(s) > max
  {
    assert s == p + s[|p|..];
    CutAppend(p, s[|p|..], max);
    LenAppend(p, s[|p|..]);
  }

  /** Truncation does not see what follows exactly if that is nothing, or the text before it is too long already. */
  lemma TruncatedAlikeIff(s: string, more: string, max: nat)
    ensures Truncated(s, max) == Truncated(s + more, max) <==> more == "" || Len(s) > max
  {
    LenAppend(s, more);
    if more == "" {
      assert s + more == s;
    } else if Len(s) > max {
      CutAppend(s, more, max);
    } else {
      assert s + more != s;
    }
  }

  /**
    Streaming truncation refines one-shot truncation: with four bytes of slack the two stages give the
    text and the flag that truncating the whole output would give.
  */
  lemma SlackOfFourIsEnough(chunks: seq<string>, max: nat, slack: nat)
    requires slack >= 4
    ensures Truncated(Captured(chunks, max + slack), max) == Truncated(Concat(chunks), max)
  {
    var cap, full := max + slack, Concat(chunks);
    CaptureBeginsWithCut(chunks, cap);
    if Len(full) > cap {
      CutFillsUp(full, cap);
      CutIsLongestPrefix(full, cap, 0);
      CutPrefix(full, Cut(full, cap), max);
      CutPrefix(Captured(chunks, cap), Cut(full, cap), max);
    }
  }

  ghost predicate Lossless(slack: nat) {
    forall chunks: seq<string>, max: nat ::
      Truncated(Captured(chunks, max + slack), max) == Truncated(Concat(chunks), max)
  }

  lemma SmallerSlackLosesTheFlag(slack: nat)
    requires slack < 4
    ensures Truncated(Captured(["a\U{1F600}"], 1 + slack), 1) != Truncated(Concat(["a\U{1F600}"]), 1)
  {
    var text := "a\U{1F600}";
    var none: seq<string> := [];
    assert [text][..0] == none;
    assert "" + text == text;
    assert Concat([text]) == text;
    assert text[1..] == "\U{1F600}" && text[1..][1..] == "";
    assert Len(text) == 5;
    assert Cut(text, 1 + slack) == "a";
    assert Captured([text], 1 + slack) == "" + "a" == "a";
    assert "a"[1..] == "";
    assert Len("a") == 1;
  }

  /** The slack the scheduler asks for is exactly the least one that works. */
  lemma FourIsTheLeastSlack(slack: nat)
    ensures Lossless(slack) <==> slack >= 4
  {
    if slack >= 4 {
      forall chunks: seq<string>, max: nat
        ensures Truncated(Captured(chunks, max + slack), max) == Truncated(Concat(chunks), max)
      {
        SlackOfFourIsEnough(chunks, max, slack);
      }
    } else {
      SmallerSlackLosesTheFlag(slack);
    }
  }
}
