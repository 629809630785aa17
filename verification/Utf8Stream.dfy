/** The streaming UTF-8 decoder of the C++ daemon (`utf8_stream_decode.h`): bytes
    arrive in chunks, malformed input is replaced, and a sequence cut off by the
    end of a chunk is carried over to the next. */
module Utf8Stream {
  import opened Common

  type bytes = seq<byte>

  const REPLACEMENT: bytes := [0xEF, 0xBF, 0xBD]

  // ----- The decoder ------------------------------------------------------

  predicate IsContinuation(ch: byte) {
    0x80 <= ch <= 0xBF
  }

  predicate ValidSequenceByte(lead: byte, offset: nat, ch: byte) {
    if offset > 1 then IsContinuation(ch)
    else if lead == 0xE0 then 0xA0 <= ch <= 0xBF
    else if 0xE1 <= lead <= 0xEC then IsContinuation(ch)
    else if lead == 0xED then 0x80 <= ch <= 0x9F
    else if 0xEE <= lead <= 0xEF then IsContinuation(ch)
    else if lead == 0xF0 then 0x90 <= ch <= 0xBF
    else if 0xF1 <= lead <= 0xF3 then IsContinuation(ch)
    else if lead == 0xF4 then 0x80 <= ch <= 0x8F
    else IsContinuation(ch)
  }

  /** The length a lead byte announces; 0 for a byte that cannot lead. */
  function Expected(ch: byte): nat {
    if ch < 0x80 then 1
    else if 0xC2 <= ch <= 0xDF then 2
    else if 0xE0 <= ch <= 0xEF then 3
    else if 0xF0 <= ch <= 0xF4 then 4
    else 0
  }

  datatype Verdict = Complete | Invalid | Incomplete

  /** Checks the bytes of the announced sequence from `offset` on. */
  function Check(raw: bytes, offset: nat): Verdict
    requires raw != []
    decreases 4 - offset
  {
    if offset >= Expected(raw[0]) then Complete
    else if offset >= |raw| then Incomplete
    else if !ValidSequenceByte(raw[0], offset, raw[offset]) then Invalid
    else Check(raw, offset + 1)
  }

  lemma {:induction false} CompleteFits(raw: bytes, offset: nat)
    requires raw != [] && offset <= |raw|
    requires Check(raw, offset) == Complete
    ensures Expected(raw[0]) <= |raw| || Expected(raw[0]) <= offset
    decreases 4 - offset
  {
    if offset < Expected(raw[0]) {
      CompleteFits(raw, offset + 1);
    }
  }

  /** What the front of the input calls for: emit something and move on, or wait for more bytes. */
  datatype Piece = Emit(out: bytes, consumed: nat) | Wait

  function Front(raw: bytes): (p: Piece)
    requires raw != []
    ensures p.Emit? ==> 1 <= p.consumed <= |raw|
  {
    if raw[0] < 0x80 then Emit([raw[0]], 1)
    else if Expected(raw[0]) == 0 then Emit(REPLACEMENT, 1)
    else
      match Check(raw, 1)
      case Incomplete => Wait
      case Invalid => Emit(REPLACEMENT, 1)
      case Complete =>
        CompleteFits(raw, 1);
        Emit(raw[..Expected(raw[0])], Expected(raw[0]))
  }

  /** What one call makes of the carried bytes followed by the chunk: the output
      and the bytes left to carry. */
  function Decode(raw: bytes, flush: bool): (bytes, bytes)
    decreases |raw|
  {
    if raw == [] then ([], [])
    else
      match Front(raw)
      case Emit(out, n) =>
        var (rest, carry) := Decode(raw[n..], flush);
        (out + rest, carry)
      case Wait => if flush then (REPLACEMENT, []) else ([], raw)
  }

  // ----- Chunking does not matter -----------------------------------------

  /** A verdict that does not ask for more bytes is final. */
  lemma {:induction false} CheckIsFinal(raw: bytes, more: bytes, offset: nat)
    requires raw != []
    requires Check(raw, offset) != Incomplete
    ensures Check(raw + more, offset) == Check(raw, offset)
    decreases 4 - offset
  {
    if offset < Expected(raw[0]) && offset < |raw| && ValidSequenceByte(raw[0], offset, raw[offset]) {
      CheckIsFinal(raw, more, offset + 1);
    }
  }

  lemma FrontIsFinal(raw: bytes, more: bytes)
    requires raw != [] && Front(raw).Emit?
    ensures Front(raw + more) == Front(raw)
    ensures (raw + more)[Front(raw).consumed..] == raw[Front(raw).consumed..] + more
  {
    if raw[0] >= 0x80 && Expected(raw[0]) != 0 {
      CheckIsFinal(raw, more, 1);
      if Check(raw, 1) == Complete {
        CompleteFits(raw, 1);
        assert (raw + more)[..Expected(raw[0])] == raw[..Expected(raw[0])];
      }
    }
  }

  /** The two-call lemma: decoding `a` and then, with what it carries, `b`, is decoding `a + b`. */
  lemma {:induction false} DecodeInTwoCalls(a: bytes, b: bytes, flush: bool)
    ensures var (out, carry) := Decode(a, false);
            var (out2, carry2) := Decode(carry + b, flush);
            Decode(a + b, flush) == (out + out2, carry2)
    decreases |a|
  {
    hide Front;
    if a == [] || Front(a).Wait? {
      var (out, carry) := Decode(a, false);
      assert out == [] && carry + b == a + b;
      assert [] + Decode(a + b, flush).0 == Decode(a + b, flush).0;
    } else {
      var Emit(piece, n) := Front(a);
      FrontIsFinal(a, b);
      DecodeInTwoCalls(a[n..], b, flush);
      var (out, carry) := Decode(a[n..], false);
      assert (piece + out) + Decode(carry + b, flush).0 == piece + (out + Decode(carry + b, flush).0);
    }
  }

  function Concat(chunks: seq<bytes>): bytes {
    if chunks == [] then [] else Concat(chunks[..|chunks| - 1]) + chunks[|chunks| - 1]
  }

  /** Feeding chunks one after the other, none of them flushed. */
  function Feed(chunks: seq<bytes>): (bytes, bytes) {
    if chunks == [] then ([], [])
    else
      var (out, carry) := Feed(chunks[..|chunks| - 1]);
      var (more, carry') := Decode(carry + chunks[|chunks| - 1], false);
      (out + more, carry')
  }

  lemma {:induction false} FeedIsOneCall(chunks: seq<bytes>)
    ensures Feed(chunks) == Decode(Concat(chunks), false)
  {
    if chunks != [] {
      var n := |chunks| - 1;
      FeedIsOneCall(chunks[..n]);
      DecodeInTwoCalls(Concat(chunks[..n]), chunks[n], false);
    }
  }

  /** For every byte string and every way to cut it into chunks, the outputs of
      the calls, the last one flushed, add up to one flushed decode of the whole. */
  lemma ChunkingDoesNotMatter(chunks: seq<bytes>, last: bytes)
    ensures var (out, carry) := Feed(chunks);
            out + Decode(carry + last, true).0 == Decode(Concat(chunks) + last, true).0
    ensures Decode(Feed(chunks).1 + last, true).1 == []
  {
    FeedIsOneCall(chunks);
    DecodeInTwoCalls(Concat(chunks), last, true);
    FlushCarriesNothing(Feed(chunks).1 + last);
  }

  lemma {:induction false} FlushCarriesNothing(raw: bytes)
    ensures Decode(raw, true).1 == []
    decreases |raw|
  {
    if raw != [] && Front(raw).Emit? {
      FlushCarriesNothing(raw[Front(raw).consumed..]);
    }
  }

  // ----- Well-formed UTF-8, section 4 of RFC 3629 -------------------------

  predicate Tail(ch: byte) {
    0x80 <= ch <= 0xBF
  }

  predicate WellFormedChar(s: bytes) {
    || (|s| == 1 && s[0] <= 0x7F)
    || (|s| == 2 && 0xC2 <= s[0] <= 0xDF && Tail(s[1]))
    || (|s| == 3 && (|| (s[0] == 0xE0 && 0xA0 <= s[1] <= 0xBF && Tail(s[2]))
                     || (0xE1 <= s[0] <= 0xEC && Tail(s[1]) && Tail(s[2]))
                     || (s[0] == 0xED && 0x80 <= s[1] <= 0x9F && Tail(s[2]))
                     || (0xEE <= s[0] <= 0xEF && Tail(s[1]) && Tail(s[2]))))
    || (|s| == 4 && (|| (s[0] == 0xF0 && 0x90 <= s[1] <= 0xBF && Tail(s[2]) && Tail(s[3]))
                     || (0xF1 <= s[0] <= 0xF3 && Tail(s[1]) && Tail(s[2]) && Tail(s[3]))
                     || (s[0] == 0xF4 && 0x80 <= s[1] <= 0x8F && Tail(s[2]) && Tail(s[3]))))
  }

  ghost predicate WellFormed(s: bytes)
    decreases |s|
  {
    s == [] || exists n :: 1 <= n <= |s| && WellFormedChar(s[..n]) && WellFormed(s[n..])
  }

  /** The decoder accepts a sequence exactly when the grammar does. */
  lemma CompleteIsWellFormed(raw: bytes)
    requires raw != [] && Expected(raw[0]) >= 2
    ensures Check(raw, 1) == Complete
       <==> Expected(raw[0]) <= |raw| && WellFormedChar(raw[..Expected(raw[0])])
  {
    if Check(raw, 1) == Complete {
      CompleteFits(raw, 1);
    }
    if |raw| >= 2 && Expected(raw[0]) >= 3 {
      if |raw| >= 3 && Expected(raw[0]) >= 4 {
        assert Check(raw, 3) == Complete ==> Check(raw, 4) == Complete;
      }
    }
  }

  lemma WellFormedCons(c: bytes, s: bytes)
    requires WellFormedChar(c)
    requires WellFormed(s)
    ensures WellFormed(c + s)
  {
    assert (c + s)[..|c|] == c && (c + s)[|c|..] == s;
  }

  lemma FrontIsWellFormed(raw: bytes)
    requires raw != [] && Front(raw).Emit?
    ensures WellFormedChar(Front(raw).out)
  {
    if Expected(raw[0]) >= 2 {
      CompleteIsWellFormed(raw);
    }
  }

  /** Whatever comes in, what goes out is well-formed UTF-8. */
  lemma {:induction false} OutputIsWellFormed(raw: bytes, flush: bool)
    ensures WellFormed(Decode(raw, flush).0)
    decreases |raw|
  {
    hide WellFormedChar, Front;
    if raw != [] {
      if Front(raw).Emit? {
        var rest := raw[Front(raw).consumed..];
        FrontIsWellFormed(raw);
        OutputIsWellFormed(rest, flush);
        WellFormedCons(Front(raw).out, Decode(rest, flush).0);
      } else {
        ReplacementIsWellFormed();
      }
    }
  }

  lemma ReplacementIsWellFormed()
    ensures WellFormed(REPLACEMENT)
  {
    WellFormedCons(REPLACEMENT, []);
    assert REPLACEMENT + [] == REPLACEMENT;
  }

  lemma WellFormedFront(s: bytes, n: nat)
    requires 1 <= n <= |s| && WellFormedChar(s[..n])
    ensures Front(s) == Emit(s[..n], n)
  {
    assert s[..n][0] == s[0];
    if n >= 2 {
      CompleteIsWellFormed(s);
    }
  }

  lemma FirstChar(s: bytes) returns (n: nat)
    requires WellFormed(s) && s != []
    ensures 1 <= n <= |s| && WellFormedChar(s[..n]) && WellFormed(s[n..])
  {
    n :| 1 <= n <= |s| && WellFormedChar(s[..n]) && WellFormed(s[n..]);
  }

  /** Well-formed input passes through unchanged, and nothing is carried. */
  lemma {:induction false} WellFormedPassesThrough(s: bytes, flush: bool)
    requires WellFormed(s)
    ensures Decode(s, flush) == (s, [])
    decreases |s|
  {
    hide Front, WellFormedChar, WellFormed;
    if s != [] {
      var n := FirstChar(s);
      WellFormedFront(s, n);
      WellFormedPassesThrough(s[n..], flush);
      assert s == s[..n] + s[n..];
    }
  }

  /** The decoder changes its input exactly when the input is malformed. */
  lemma UnchangedIffWellFormed(s: bytes)
    ensures Decode(s, true).0 == s <==> WellFormed(s)
  {
    OutputIsWellFormed(s, true);
    if WellFormed(s) {
      WellFormedPassesThrough(s, true);
    }
  }

  // ----- The carry --------------------------------------------------------

  /** A well-formed sequence that begins with `c`, when `c` is an unfinished one. */
  function Completion(c: bytes): bytes
    requires c != []
  {
    var second: byte := if c[0] == 0xE0 then 0xA0 else if c[0] == 0xF0 then 0x90 else 0x80;
    var two := if |c| == 1 then c + [second] else c;
    var three := if |two| < Expected(c[0]) && |two| == 2 then two + [0x80] else two;
    if |three| < Expected(c[0]) then three + [0x80] else three
  }

  /** The bytes of a sequence that is valid as far as it goes. */
  predicate ValidSoFar(raw: bytes)
    requires raw != []
  {
    && |raw| < Expected(raw[0])
    && (|raw| >= 2 ==> ValidSequenceByte(raw[0], 1, raw[1]))
    && (|raw| >= 3 ==> IsContinuation(raw[2]))
  }

  lemma IncompleteIsValidSoFar(raw: bytes)
    requires raw != [] && Expected(raw[0]) >= 2
    requires Check(raw, 1) == Incomplete
    ensures ValidSoFar(raw)
  {
    if |raw| >= 2 {
      assert Check(raw, 2) == Incomplete;
      if |raw| >= 3 {
        assert Check(raw, 3) == Incomplete;
      }
    }
  }

  lemma CompletionOfOne(raw: bytes)
    requires |raw| == 1 && ValidSoFar(raw)
    ensures WellFormedChar(Completion(raw)) && raw < Completion(raw)
  {
  }

  lemma CompletionOfMore(raw: bytes)
    requires 2 <= |raw| <= 3 && ValidSoFar(raw)
    ensures WellFormedChar(Completion(raw)) && raw < Completion(raw)
  {
  }

  lemma IncompleteIsPrefix(raw: bytes)
    requires raw != [] && Expected(raw[0]) >= 2
    requires Check(raw, 1) == Incomplete
    ensures |raw| <= 3
    ensures WellFormedChar(Completion(raw)) && raw < Completion(raw)
  {
    hide WellFormedChar, Completion, Check;
    IncompleteIsValidSoFar(raw);
    if |raw| == 1 {
      CompletionOfOne(raw);
    } else {
      CompletionOfMore(raw);
    }
  }

  ghost predicate Unfinished(carry: bytes) {
    |carry| <= 3 && exists w :: WellFormedChar(w) && carry < w
  }

  /** What is carried is the end of the input: nothing, or the beginning of a
      well-formed sequence, at most three bytes long. */
  lemma {:induction false} CarryIsUnfinished(raw: bytes)
    ensures var carry := Decode(raw, false).1;
            && Unfinished(carry)
            && |carry| <= |raw| && raw[|raw| - |carry|..] == carry
    decreases |raw|
  {
    if raw == [] {
      assert WellFormedChar([0x41]) && [] < [0x41 as byte];
    } else if Front(raw).Emit? {
      CarryIsUnfinished(raw[Front(raw).consumed..]);
    } else {
      IncompleteIsPrefix(raw);
    }
  }

  // ----- The grammar as reference -----------------------------------------

  ghost predicate StartsWell(raw: bytes) {
    exists n :: 1 <= n <= |raw| && WellFormedChar(raw[..n])
  }

  ghost predicate CutOff(raw: bytes) {
    exists w :: WellFormedChar(w) && raw < w
  }

  /** Lossy repair, said with the grammar alone: copy well-formed characters;
      replace a cut-off character at the very end as a whole, and any other
      offending byte on its own, by U+FFFD. */
  ghost function Repaired(raw: bytes): bytes
    decreases |raw|
  {
    if raw == [] then []
    else if StartsWell(raw) then
      var n :| 1 <= n <= |raw| && WellFormedChar(raw[..n]);
      raw[..n] + Repaired(raw[n..])
    else if CutOff(raw) then [0xEF, 0xBF, 0xBD]
    else [0xEF, 0xBF, 0xBD] + Repaired(raw[1..])
  }

  lemma CutOffWaits(raw: bytes, w: bytes)
    requires raw != [] && WellFormedChar(w) && raw < w
    ensures Front(raw) == Wait
  {
    assert raw[0] == w[0] && Expected(w[0]) == |w|;
    assert |raw| >= 2 ==> raw[1] == w[1];
    assert |raw| >= 3 ==> raw[2] == w[2];
    if |raw| >= 2 {
      assert ValidSequenceByte(raw[0], 1, raw[1]);
      if |raw| >= 3 {
        assert Check(raw, 3) == Incomplete;
      }
      assert Check(raw, 2) == Incomplete;
    }
  }

  lemma FrontByGrammar(raw: bytes)
    requires raw != []
    ensures StartsWell(raw) <==> Front(raw).Emit? && Front(raw).out == raw[..Front(raw).consumed]
    ensures !StartsWell(raw) && CutOff(raw) <==> Front(raw).Wait?
    ensures !StartsWell(raw) && !CutOff(raw) ==> Front(raw) == Emit(REPLACEMENT, 1)
    ensures forall n :: 1 <= n <= |raw| && WellFormedChar(raw[..n]) ==> Front(raw) == Emit(raw[..n], n)
  {
    forall n | 1 <= n <= |raw| && WellFormedChar(raw[..n]) ensures Front(raw) == Emit(raw[..n], n) {
      WellFormedFront(raw, n);
    }
    if Front(raw).Emit? {
      FrontIsWellFormed(raw);
    } else {
      IncompleteIsPrefix(raw);
    }
    if CutOff(raw) {
      var w :| WellFormedChar(w) && raw < w;
      CutOffWaits(raw, w);
    }
  }

  /** A flushed decode is the repair of its input, for every byte string. */
  lemma {:induction false} DecodeIsRepair(raw: bytes)
    ensures Decode(raw, true).0 == Repaired(raw)
    decreases |raw|
  {
    if raw != [] {
      hide Front, WellFormedChar, StartsWell, CutOff;
      FrontByGrammar(raw);
      if Front(raw).Emit? {
        DecodeIsRepair(raw[Front(raw).consumed..]);
      }
    }
  }

  // ----- The loop ---------------------------------------------------------

  class StreamDecoder {
    var carry: bytes

    constructor ()
      ensures carry == []
    {
      carry := [];
    }

    method DecodeChunk(chunk: bytes, flush: bool) returns (output: bytes)
      modifies this
      ensures (output, carry) == Decode(old(carry) + chunk, flush)
    {
      hide Decode, Resume, Check;
      var raw := carry + chunk;
      carry := [];
      output := [];
      var index := 0;
      ghost var whole := Decode(raw, flush);
      assert raw[0..] == raw;
      ResumeEnds(raw, flush);
      while index < |raw|
        invariant 0 <= index <= |raw|
        invariant carry == []
        invariant whole == Resume(output, raw[index..], flush)
      {
        var ch := raw[index];
        if ch < 0x80 {
          ResumeEmit(output, raw[index..], flush);
          assert raw[index..][1..] == raw[index + 1..];
          output := output + [ch];
          index := index + 1;
          continue;
        }
        var expected := Expected(ch);
        if expected == 0 {
          ResumeEmit(output, raw[index..], flush);
          assert raw[index..][1..] == raw[index + 1..];
          output := output + REPLACEMENT;
          index := index + 1;
          continue;
        }
        var verdict := CheckSequence(raw, index);
        if verdict.Incomplete? {
          ResumeWait(output, raw[index..], flush);
          if !flush {
            carry := raw[index..];
            return;
          }
          output := output + REPLACEMENT;
          return;
        }
        ResumeEmit(output, raw[index..], flush);
        if verdict.Invalid? {
          assert raw[index..][1..] == raw[index + 1..];
          output := output + REPLACEMENT;
          index := index + 1;
          continue;
        }
        CompleteFits(raw[index..], 1);
        assert raw[index..][..expected] == raw[index..index + expected];
        assert raw[index..][expected..] == raw[index + expected..];
        output := output + raw[index..index + expected];
        index := index + expected;
      }
      assert raw[index..] == [];
      ResumeDone(output, flush);
    }
  }

  /** The inner loop over the bytes of one announced sequence. */
  method CheckSequence(raw: bytes, index: nat) returns (verdict: Verdict)
    requires index < |raw| && Expected(raw[index]) >= 2
    ensures verdict == Check(raw[index..], 1)
  {
    var ch := raw[index];
    var offset := 1;
    while offset < Expected(ch)
      invariant 1 <= offset <= Expected(ch)
      invariant Check(raw[index..], 1) == Check(raw[index..], offset)
    {
      if index + offset >= |raw| {
        return Incomplete;
      }
      if !ValidSequenceByte(ch, offset, raw[index + offset]) {
        return Invalid;
      }
      offset := offset + 1;
    }
    return Complete;
  }

  /** The state of the outer loop: what is out already, then what is left to decode. */
  ghost function Resume(output: bytes, rest: bytes, flush: bool): (bytes, bytes) {
    (output + Decode(rest, flush).0, Decode(rest, flush).1)
  }

  lemma ResumeEnds(raw: bytes, flush: bool)
    ensures Resume([], raw, flush) == Decode(raw, flush)
  {
    assert [] + Decode(raw, flush).0 == Decode(raw, flush).0;
  }

  lemma ResumeDone(output: bytes, flush: bool)
    ensures Resume(output, [], flush) == (output, [])
  {
    assert output + [] == output;
  }

  lemma ResumeWait(output: bytes, rest: bytes, flush: bool)
    requires rest != [] && Front(rest).Wait?
    ensures Resume(output, rest, flush) == if flush then (output + REPLACEMENT, []) else (output, rest)
  {
    assert output + [] == output;
  }

  lemma ResumeEmit(output: bytes, rest: bytes, flush: bool)
    requires rest != [] && Front(rest).Emit?
    ensures Resume(output, rest, flush) == Resume(output + Front(rest).out, rest[Front(rest).consumed..], flush)
  {
    hide Front;
    var more := Decode(rest[Front(rest).consumed..], flush).0;
    assert output + (Front(rest).out + more) == output + Front(rest).out + more;
  }
}
