/** Streaming UTF-8 assembly. The byte-level classification follows what a conforming decoder must
    accept (RFC 3629, section 4); it is checked here against the encoding of characters itself. */
module Utf8 {
  import opened Wrappers
  import opened Events

  /** A Unicode scalar value. */
  type Scalar = c: int | 0 <= c < 0x11_0000 && !(0xD800 <= c < 0xE000)

  const REPLACEMENT: Scalar := 0xFFFD

  type Text = seq<Scalar>

  // ---- The encoding of one character (RFC 3629, section 3) ----

  function Encoding(c: Scalar): (bytes: seq<Byte>)
    ensures 1 <= |bytes| <= 4
  {
    if c < 0x80 then [c]
    else if c < 0x800 then [0xC0 + c / 64, 0x80 + c % 64]
    else if c < 0x1_0000 then [0xE0 + c / 64 / 64, 0x80 + c / 64 % 64, 0x80 + c % 64]
    else [0xF0 + c / 64 / 64 / 64, 0x80 + c / 64 / 64 % 64, 0x80 + c / 64 % 64, 0x80 + c % 64]
  }

  function EncodingOf(text: Text): seq<Byte> {
    if text == [] then [] else Encoding(text[0]) + EncodingOf(text[1..])
  }

  /** Six more bits at the low end. */
  function Join(high: int, low: int): int {
    high * 64 + low
  }

  /** The bits a byte carries past its marker. */
  function Payload(b: Byte, marker: int): int {
    b - marker
  }

  lemma JoinSplits(high: int, low: int)
    requires 0 <= low < 64
    ensures Join(high, low) / 64 == high && Join(high, low) % 64 == low
  {
  }

  lemma SplitJoins(c: int)
    ensures Join(c / 64, c % 64) == c && 0 <= c % 64 < 64
  {
  }

  // ---- Classifying the head of a byte string ----

  /** What a byte string starts with: a whole character of `len` bytes, `len` bytes that no
      continuation can repair, or the beginning of a character that is all there is so far. */
  datatype Head = Whole(len: nat, c: Scalar) | Broken(len: nat) | Partial

  predicate Continuation(b: Byte) {
    0x80 <= b < 0xC0
  }

  /** Bytes in the character a leading byte announces; 0 when it can lead nothing. */
  function Width(first: Byte): (w: nat) {
    if first < 0x80 then 1
    else if 0xC2 <= first < 0xE0 then 2
    else if 0xE0 <= first < 0xF0 then 3
    else if 0xF0 <= first < 0xF5 then 4
    else 0
  }

  /** The second byte allowed after a leading byte: no overlong forms, no surrogates, nothing past the
      last plane. */
  predicate SecondFits(first: Byte, second: Byte) {
    if first == 0xE0 then 0xA0 <= second < 0xC0
    else if first == 0xED then 0x80 <= second < 0xA0
    else if first == 0xF0 then 0x90 <= second < 0xC0
    else if first == 0xF4 then 0x80 <= second < 0x90
    else Continuation(second)
  }

  function HeadOf(bytes: seq<Byte>): (h: Head)
    requires bytes != []
    ensures h.Whole? ==> 1 <= h.len <= |bytes|
    ensures h.Broken? ==> 1 <= h.len <= |bytes|
  {
    var w := Width(bytes[0]);
    if w == 0 then Broken(1)
    else if w == 1 then Whole(1, bytes[0])
    else if |bytes| == 1 then Partial
    else if !SecondFits(bytes[0], bytes[1]) then Broken(1)
    else if w == 2 then Whole(2, Join(Payload(bytes[0], 0xC0), Payload(bytes[1], 0x80)))
    else if |bytes| == 2 then Partial
    else if !Continuation(bytes[2]) then Broken(2)
    else if w == 3 then Whole(3, Join(Join(Payload(bytes[0], 0xE0), Payload(bytes[1], 0x80)), Payload(bytes[2], 0x80)))
    else if |bytes| == 3 then Partial
    else if !Continuation(bytes[3]) then Broken(3)
    else Whole(4, Join(Join(Join(Payload(bytes[0], 0xF0), Payload(bytes[1], 0x80)), Payload(bytes[2], 0x80)), Payload(bytes[3], 0x80)))
  }

  lemma EncodeTwo(h: int, l: int)
    requires 2 <= h < 32 && 0 <= l < 64
    ensures 0 <= Join(h, l) < 0x800 && Encoding(Join(h, l)) == [0xC0 + h, 0x80 + l]
  {
    JoinSplits(h, l);
  }

  lemma EncodeThree(h: int, m: int, l: int)
    requires 0 <= h < 16 && 0 <= m < 64 && 0 <= l < 64
    requires (h == 0 ==> m >= 32) && (h == 13 ==> m < 32)
    ensures var c := Join(Join(h, m), l);
      0x800 <= c < 0x1_0000 && !(0xD800 <= c < 0xE000) && Encoding(c) == [0xE0 + h, 0x80 + m, 0x80 + l]
  {
    JoinSplits(h, m);
    JoinSplits(Join(h, m), l);
  }

  lemma EncodeFour(h: int, k: int, m: int, l: int)
    requires 0 <= h < 5 && 0 <= k < 64 && 0 <= m < 64 && 0 <= l < 64
    requires (h == 0 ==> k >= 16) && (h == 4 ==> k < 16)
    ensures var c := Join(Join(Join(h, k), m), l);
      0x1_0000 <= c < 0x11_0000 && Encoding(c) == [0xF0 + h, 0x80 + k, 0x80 + m, 0x80 + l]
  {
    JoinSplits(h, k);
    JoinSplits(Join(h, k), m);
    JoinSplits(Join(Join(h, k), m), l);
  }

  /** A whole character is the encoding of its scalar value. */
  lemma WholeIsEncoding(bytes: seq<Byte>)
    requires bytes != [] && HeadOf(bytes).Whole?
    ensures bytes[..HeadOf(bytes).len] == Encoding(HeadOf(bytes).c)
  {
    var w := Width(bytes[0]);
    if w == 1 {
      assert bytes[..1] == Encoding(bytes[0]);
    } else {
      hide Encoding, Join;
      if w == 2 {
        EncodeTwo(Payload(bytes[0], 0xC0), Payload(bytes[1], 0x80));
      } else if w == 3 {
        EncodeThree(Payload(bytes[0], 0xE0), Payload(bytes[1], 0x80), Payload(bytes[2], 0x80));
      } else {
        EncodeFour(Payload(bytes[0], 0xF0), Payload(bytes[1], 0x80), Payload(bytes[2], 0x80), Payload(bytes[3], 0x80));
      }
    }
  }

  /** Every character's encoding is recognized, whatever follows it. */
  lemma EncodingIsWhole(c: Scalar, rest: seq<Byte>)
    ensures HeadOf(Encoding(c) + rest) == Whole(|Encoding(c)|, c)
  {
    SplitJoins(c);
    SplitJoins(c / 64);
    SplitJoins(c / 64 / 64);
  }

  /** A beginning of a character, cut short, is recognized as such. */
  lemma CutIsPartial(c: Scalar, n: nat)
    requires 0 < n < |Encoding(c)|
    ensures HeadOf(Encoding(c)[..n]) == Partial
  {
  }

  /** The lowest second byte that fits. */
  function FirstSecond(first: Byte): Byte {
    if first == 0xE0 then 0xA0 else if first == 0xF0 then 0x90 else 0x80
  }

  /** Some character that starts with these bytes. */
  function Completion(bytes: seq<Byte>): Scalar
    requires bytes != [] && HeadOf(bytes) == Partial
  {
    var w := Width(bytes[0]);
    var second := if |bytes| > 1 then bytes[1] else FirstSecond(bytes[0]);
    var third := if |bytes| > 2 then bytes[2] else 0x80;
    if w == 2 then Join(Payload(bytes[0], 0xC0), 0)
    else if w == 3 then Join(Join(Payload(bytes[0], 0xE0), Payload(second, 0x80)), 0)
    else Join(Join(Join(Payload(bytes[0], 0xF0), Payload(second, 0x80)), Payload(third, 0x80)), 0)
  }

  lemma PartialShape(bytes: seq<Byte>)
    requires bytes != [] && HeadOf(bytes) == Partial
    ensures var w := Width(bytes[0]);
      && 2 <= w <= 4 && |bytes| < w
      && (|bytes| > 1 ==> SecondFits(bytes[0], bytes[1])) && (|bytes| > 2 ==> Continuation(bytes[2]))
  {
  }

  lemma TwoBegins(b0: Byte)
    requires Width(b0) == 2
    ensures var e := Encoding(Join(Payload(b0, 0xC0), 0)); |e| == 2 && e[0] == b0
  {
    hide Encoding, Join;
    EncodeTwo(Payload(b0, 0xC0), 0);
  }

  lemma ThreeBegins(b0: Byte, b1: Byte)
    requires Width(b0) == 3 && SecondFits(b0, b1)
    ensures 0x80 <= b1 < 0xC0 && ThreeIsScalar(b0, b1)
    ensures var e := Encoding(Join(Join(Payload(b0, 0xE0), Payload(b1, 0x80)), 0)); |e| == 3 && e[0] == b0 && e[1] == b1
  {
    hide Encoding, Join;
    EncodeThree(Payload(b0, 0xE0), Payload(b1, 0x80), 0);
  }

  predicate ThreeIsScalar(b0: Byte, b1: Byte) {
    var c := Join(Join(Payload(b0, 0xE0), Payload(b1, 0x80)), 0);
    0 <= c < 0x11_0000 && !(0xD800 <= c < 0xE000)
  }

  lemma FourBegins(b0: Byte, b1: Byte, b2: Byte)
    requires Width(b0) == 4 && SecondFits(b0, b1) && Continuation(b2)
    ensures FourIsScalar(b0, b1, b2)
    ensures var e := Encoding(Join(Join(Join(Payload(b0, 0xF0), Payload(b1, 0x80)), Payload(b2, 0x80)), 0));
      |e| == 4 && e[0] == b0 && e[1] == b1 && e[2] == b2
  {
    hide Encoding, Join;
    EncodeFour(Payload(b0, 0xF0), Payload(b1, 0x80), Payload(b2, 0x80), 0);
  }

  predicate FourIsScalar(b0: Byte, b1: Byte, b2: Byte) {
    var c := Join(Join(Join(Payload(b0, 0xF0), Payload(b1, 0x80)), Payload(b2, 0x80)), 0);
    0 <= c < 0x11_0000 && !(0xD800 <= c < 0xE000)
  }

  /** What is held back can still become a character; it is at most 3 bytes. */
  lemma PartialIsBeginning(bytes: seq<Byte>)
    requires bytes != [] && HeadOf(bytes) == Partial
    ensures |bytes| <= 3 && bytes < Encoding(Completion(bytes))
  {
    PartialShape(bytes);
    CompletionStarts(bytes);
    hide HeadOf, Encoding, Completion;
    assert bytes == Encoding(Completion(bytes))[..|bytes|];
  }

  lemma CompletionStarts(bytes: seq<Byte>)
    requires bytes != [] && HeadOf(bytes) == Partial
    ensures var e := Encoding(Completion(bytes));
      |bytes| < |e| && forall i :: 0 <= i < |bytes| ==> bytes[i] == e[i]
  {
    hide HeadOf, Encoding, Join, Payload;
    PartialShape(bytes);
    var w := Width(bytes[0]);
    var second := if |bytes| > 1 then bytes[1] else FirstSecond(bytes[0]);
    var third := if |bytes| > 2 then bytes[2] else 0x80;
    if w == 2 {
      TwoBegins(bytes[0]);
    } else if w == 3 {
      ThreeBegins(bytes[0], second);
    } else {
      FourBegins(bytes[0], second, third);
    }
  }

  /** A broken head is decided by the first byte that cannot continue it. */
  lemma BrokenStaysBroken(bytes: seq<Byte>, k: nat)
    requires bytes != [] && HeadOf(bytes).Broken? && HeadOf(bytes).len < k <= |bytes|
    ensures HeadOf(bytes[..k]) == HeadOf(bytes)
  {
  }

  /** A broken head is a maximal subpart: one byte, or the beginning of a character; and no longer
      stretch of the input is the beginning of any character (Unicode Standard, section 3.9). */
  lemma BrokenIsMaximalSubpart(bytes: seq<Byte>, c: Scalar, k: nat)
    requires bytes != [] && HeadOf(bytes).Broken?
    ensures HeadOf(bytes).len == 1 || HeadOf(bytes[..HeadOf(bytes).len]) == Partial
    ensures HeadOf(bytes).len < k <= |bytes| ==> !(bytes[..k] <= Encoding(c))
    ensures !(Encoding(c) <= bytes) && !(bytes <= Encoding(c))
  {
    BrokenIsShort(bytes);
    hide HeadOf, Encoding;
    if Encoding(c) <= bytes {
      LongerIsWhole(c, bytes);
    } else if bytes < Encoding(c) {
      ShorterIsPartial(c, bytes);
    } else if HeadOf(bytes).len < k <= |bytes| && bytes[..k] <= Encoding(c) {
      BrokenStaysBroken(bytes, k);
      if k < |Encoding(c)| {
        ShorterIsPartial(c, bytes[..k]);
      }
    }
  }

  lemma BrokenIsShort(bytes: seq<Byte>)
    requires bytes != [] && HeadOf(bytes).Broken?
    ensures HeadOf(bytes).len == 1 || HeadOf(bytes[..HeadOf(bytes).len]) == Partial
  {
  }

  lemma LongerIsWhole(c: Scalar, bytes: seq<Byte>)
    requires Encoding(c) <= bytes
    ensures HeadOf(bytes) == Whole(|Encoding(c)|, c)
  {
    assert bytes == Encoding(c) + bytes[|Encoding(c)|..];
    EncodingIsWhole(c, bytes[|Encoding(c)|..]);
  }

  lemma ShorterIsPartial(c: Scalar, bytes: seq<Byte>)
    requires bytes != [] && bytes < Encoding(c)
    ensures HeadOf(bytes) == Partial
  {
    assert bytes == Encoding(c)[..|bytes|];
    CutIsPartial(c, |bytes|);
  }

  /** More bytes change nothing about a head that is whole or broken. */
  lemma HeadIsStable(bytes: seq<Byte>, more: seq<Byte>)
    requires bytes != [] && HeadOf(bytes) != Partial
    ensures HeadOf(bytes + more) == HeadOf(bytes)
  {
  }

  // ---- One-shot and streaming decoding ----

  /** The lossy decoding of a complete byte string: each broken head, and an incomplete end, becomes
      one replacement character. */
  function LossyDecode(bytes: seq<Byte>): Text {
    if bytes == [] then []
    else
      match HeadOf(bytes)
      case Whole(n, c) => [c] + LossyDecode(bytes[n..])
      case Broken(n) => [REPLACEMENT] + LossyDecode(bytes[n..])
      case Partial => [REPLACEMENT]
  }

  /** What a streaming decoder has said, and what it holds back, after these bytes. */
  function Streamed(bytes: seq<Byte>): (Text, seq<Byte>) {
    if bytes == [] then ([], [])
    else
      match HeadOf(bytes)
      case Whole(n, c) => ([c] + Streamed(bytes[n..]).0, Streamed(bytes[n..]).1)
      case Broken(n) => ([REPLACEMENT] + Streamed(bytes[n..]).0, Streamed(bytes[n..]).1)
      case Partial => ([], bytes)
  }

  /** The stream past a whole or broken head. */
  lemma StreamedPast(bytes: seq<Byte>)
    requires bytes != [] && HeadOf(bytes) != Partial
    ensures var n := HeadOf(bytes).len; var said := if HeadOf(bytes).Whole? then HeadOf(bytes).c else REPLACEMENT;
      Streamed(bytes) == ([said] + Streamed(bytes[n..]).0, Streamed(bytes[n..]).1)
  {
    hide HeadOf;
  }

  /** Only a beginning of a character is ever held back, at most 3 bytes. */
  lemma {:induction false} HeldBackIsBeginning(bytes: seq<Byte>)
    ensures var held := Streamed(bytes).1;
      |held| <= 3 && (held != [] ==> HeadOf(held) == Partial && held < Encoding(Completion(held)))
  {
    if bytes != [] {
      var h := HeadOf(bytes);
      if h == Partial {
        PartialIsBeginning(bytes);
      } else {
        HeldBackIsBeginning(bytes[h.len..]);
      }
    }
  }

  /** Decoding in two goes is decoding in one: later bytes never change what was said, and the bytes
      held back are all that has to be remembered. */
  lemma {:induction false} StreamedInTwo(bytes: seq<Byte>, more: seq<Byte>)
    ensures Streamed(bytes + more).0 == Streamed(bytes).0 + Streamed(Streamed(bytes).1 + more).0
    ensures Streamed(bytes + more).1 == Streamed(Streamed(bytes).1 + more).1
  {
    if bytes == [] {
      assert bytes + more == more && [] + more == more;
    } else if HeadOf(bytes) != Partial {
      hide HeadOf, Streamed;
      var n := HeadOf(bytes).len;
      HeadIsStable(bytes, more);
      DropJoined(bytes, more, n);
      StreamedInTwo(bytes[n..], more);
      StreamedPast(bytes);
      StreamedPast(bytes + more);
      Prepend(if HeadOf(bytes).Whole? then HeadOf(bytes).c else REPLACEMENT, Streamed(bytes[n..]).0, Streamed(Streamed(bytes).1 + more).0);
    }
  }

  lemma DropJoined<T>(a: seq<T>, b: seq<T>, n: nat)
    requires n <= |a|
    ensures (a + b)[n..] == a[n..] + b
  {
  }

  lemma Prepend<T>(x: T, a: seq<T>, b: seq<T>)
    ensures [x] + (a + b) == ([x] + a) + b
  {
  }

  /** Flushing the held-back bytes completes the stream to the one-shot decoding. */
  lemma {:induction false} StreamedThenFlushed(bytes: seq<Byte>)
    ensures LossyDecode(bytes) == Streamed(bytes).0 + LossyDecode(Streamed(bytes).1)
  {
    if bytes != [] && HeadOf(bytes) != Partial {
      StreamedThenFlushed(bytes[HeadOf(bytes).len..]);
    }
  }

  lemma NothingPast<T>(a: seq<T>, b: seq<T>)
    ensures a[|a|..] + b == b
  {
  }

  /** Well-formed text comes through unchanged, with nothing held back. */
  lemma {:induction false} TextRoundTrips(text: Text)
    ensures Streamed(EncodingOf(text)) == (text, []) && LossyDecode(EncodingOf(text)) == text
  {
    if text != [] {
      hide Encoding, HeadOf;
      var first, rest := Encoding(text[0]), EncodingOf(text[1..]);
      EncodingIsWhole(text[0], rest);
      DropJoined(first, rest, |first|);
      NothingPast(first, rest);
      TextRoundTrips(text[1..]);
      assert text == [text[0]] + text[1..];
    }
  }

  // ---- What becomes of ill-formed input ----

  /** Some character's encoding starts with these bytes, or is them. */
  ghost predicate Begins(bytes: seq<Byte>) {
    exists c: Scalar :: bytes <= Encoding(c)
  }

  ghost predicate StartsWhole(bytes: seq<Byte>) {
    exists c: Scalar :: Encoding(c) <= bytes
  }

  /** `part` is the maximal subpart at the front of `part + rest`, where no character can be read: the
      longest stretch that begins some character, or else a single byte (Unicode Standard, section 3.9). */
  ghost predicate MaximalSubpart(part: seq<Byte>, rest: seq<Byte>) {
    && part != [] && !StartsWhole(part + rest)
    && (|part| == 1 || Begins(part))
    && forall k :: |part| < k <= |part + rest| ==> !Begins((part + rest)[..k])
  }

  /** A character at the front decodes to itself. */
  lemma CharacterIsKept(c: Scalar, tail: seq<Byte>)
    ensures LossyDecode(Encoding(c) + tail) == [c] + LossyDecode(tail)
  {
    hide Encoding, HeadOf;
    EncodingIsWhole(c, tail);
    DropJoined(Encoding(c), tail, |Encoding(c)|);
    NothingPast(Encoding(c), tail);
  }

  /** Well-formed text ahead of anything decodes to itself. */
  lemma {:induction false} TextIsKept(text: Text, tail: seq<Byte>)
    ensures LossyDecode(EncodingOf(text) + tail) == text + LossyDecode(tail)
  {
    hide Encoding, HeadOf, LossyDecode;
    if text == [] {
      assert EncodingOf(text) + tail == tail && text + LossyDecode(tail) == LossyDecode(tail);
    } else {
      Associate(Encoding(text[0]), EncodingOf(text[1..]), tail);
      CharacterIsKept(text[0], EncodingOf(text[1..]) + tail);
      TextIsKept(text[1..], tail);
      Associate([text[0]], text[1..], LossyDecode(tail));
      assert text == [text[0]] + text[1..];
    }
  }

  /** Each maximal subpart becomes one U+FFFD, and decoding goes on right behind it. */
  lemma SubpartIsReplaced(text: Text, part: seq<Byte>, rest: seq<Byte>)
    requires MaximalSubpart(part, rest)
    ensures LossyDecode(EncodingOf(text) + part + rest) == text + [0xFFFD] + LossyDecode(rest)
  {
    hide HeadOf, Encoding, EncodingOf, MaximalSubpart, LossyDecode;
    Associate(EncodingOf(text), part, rest);
    TextIsKept(text, part + rest);
    SubpartFirst(part, rest);
    Associate(text, [0xFFFD], LossyDecode(rest));
  }

  lemma Associate<T>(a: seq<T>, b: seq<T>, c: seq<T>)
    ensures a + b + c == a + (b + c)
  {
  }

  lemma SubpartFirst(part: seq<Byte>, rest: seq<Byte>)
    requires MaximalSubpart(part, rest)
    ensures LossyDecode(part + rest) == [0xFFFD] + LossyDecode(rest)
  {
    hide HeadOf, Encoding;
    SubpartIsBroken(part, rest);
    DropJoined(part, rest, |part|);
    NothingPast(part, rest);
  }

  lemma SubpartIsBroken(part: seq<Byte>, rest: seq<Byte>)
    requires MaximalSubpart(part, rest)
    ensures HeadOf(part + rest) == Broken(|part|) || (HeadOf(part + rest) == Partial && rest == [])
  {
    hide HeadOf, Encoding;
    var bytes := part + rest;
    match HeadOf(bytes) {
      case Whole(n, c) => WholeIsEncoding(bytes);
      case Partial =>
        PartialIsBeginning(bytes);
        assert bytes[..|bytes|] == bytes;
      case Broken(n) =>
        BrokenIsShort(bytes);
        if n > |part| {
          PartialIsBeginning(bytes[..n]);
        } else if n < |part| {
          var c: Scalar :| part <= Encoding(c);
          assert bytes[..|part|] == part;
          BrokenIsMaximalSubpart(bytes, c, |part|);
        }
    }
  }

  /** A character cut off by the end of the input becomes one U+FFFD. */
  lemma CutIsReplaced(text: Text, c: Scalar, n: nat)
    requires 0 < n < |Encoding(c)|
    ensures LossyDecode(EncodingOf(text) + Encoding(c)[..n]) == text + [0xFFFD]
  {
    CutIsPartial(c, n);
    TextIsKept(text, Encoding(c)[..n]);
  }

  /** There is nothing else: every input is empty, starts with a character, or starts with a maximal
      subpart. */
  lemma InputIsDecided(bytes: seq<Byte>) returns (n: nat)
    requires bytes != []
    ensures 1 <= n <= |bytes|
    ensures (exists c: Scalar :: bytes[..n] == Encoding(c)) || MaximalSubpart(bytes[..n], bytes[n..])
  {
    hide HeadOf, Encoding;
    var h := HeadOf(bytes);
    n := if h == Partial then |bytes| else h.len;
    assert bytes[..n] + bytes[n..] == bytes;
    if h.Whole? {
      WholeIsEncoding(bytes);
    } else {
      forall c: Scalar
        ensures !(Encoding(c) <= bytes)
      {
        if Encoding(c) <= bytes {
          LongerIsWhole(c, bytes);
        }
      }
      if h == Partial {
        PartialIsBeginning(bytes);
      } else {
        BrokenIsShort(bytes);
        if n > 1 {
          PartialIsBeginning(bytes[..n]);
        }
        forall k | n < k <= |bytes|
          ensures !Begins(bytes[..k])
        {
          forall c: Scalar
            ensures !(bytes[..k] <= Encoding(c))
          {
            BrokenIsMaximalSubpart(bytes, c, k);
          }
        }
      }
    }
  }

  // ---- The buffer ----

  /** The verdict of the standard one-shot validator: all valid, or valid up to a point where `len`
      bytes are broken (`None`: the input ends inside a character). */
  datatype Checked = Valid(text: Text) | Stuck(text: Text, upTo: nat, len: Option<nat>)

  function FromUtf8(bytes: seq<Byte>): (r: Checked)
    ensures r.Stuck? ==> r.upTo < |bytes| && (r.len.Some? ==> 1 <= r.len.value <= |bytes| - r.upTo)
  {
    if bytes == [] then Valid([])
    else
      match HeadOf(bytes)
      case Broken(n) => Stuck([], 0, Some(n))
      case Partial => Stuck([], 0, None)
      case Whole(n, c) =>
        match FromUtf8(bytes[n..])
        case Valid(text) => Valid([c] + text)
        case Stuck(text, upTo, len) => Stuck([c] + text, n + upTo, len)
  }

  /** The validator's verdict in terms of the stream. */
  ghost predicate Agrees(bytes: seq<Byte>, verdict: Checked) {
    match verdict
    case Valid(text) => Streamed(bytes) == (text, [])
    case Stuck(text, upTo, None) => upTo <= |bytes| && Streamed(bytes) == (text, bytes[upTo..])
    case Stuck(text, upTo, Some(n)) =>
      && upTo + n <= |bytes|
      && Streamed(bytes).0 == text + [REPLACEMENT] + Streamed(bytes[upTo + n..]).0
      && Streamed(bytes).1 == Streamed(bytes[upTo + n..]).1
  }

  lemma {:induction false} VerdictIsStreamed(bytes: seq<Byte>)
    ensures Agrees(bytes, FromUtf8(bytes))
  {
    hide HeadOf;
    if bytes != [] && HeadOf(bytes).Whole? {
      var n := HeadOf(bytes).len;
      VerdictIsStreamed(bytes[n..]);
      VerdictPastWhole(bytes, n, HeadOf(bytes).c, FromUtf8(bytes[n..]));
    }
  }

  lemma VerdictPastWhole(bytes: seq<Byte>, n: nat, c: Scalar, rest: Checked)
    requires bytes != [] && HeadOf(bytes) == Whole(n, c) && Agrees(bytes[n..], rest)
    ensures Agrees(bytes, match rest
      case Valid(text) => Valid([c] + text)
      case Stuck(text, upTo, len) => Stuck([c] + text, n + upTo, len))
  {
    hide HeadOf, Streamed;
    StreamedPast(bytes);
    match rest {
      case Valid(text) =>
      case Stuck(text, upTo, None) => SliceTwice(bytes, n, upTo);
      case Stuck(text, upTo, Some(k)) => BrokenPastWhole(bytes, n, c, text, upTo, k);
    }
  }

  lemma BrokenPastWhole(bytes: seq<Byte>, n: nat, c: Scalar, text: Text, upTo: nat, k: nat)
    requires bytes != [] && HeadOf(bytes) == Whole(n, c) && Agrees(bytes[n..], Stuck(text, upTo, Some(k)))
    ensures Agrees(bytes, Stuck([c] + text, n + upTo, Some(k)))
  {
    hide HeadOf, Streamed;
    StreamedPast(bytes);
    SliceTwice(bytes, n, upTo + k);
    Regroup(c, text, Streamed(bytes[n..][upTo + k..]).0);
  }

  lemma SliceTwice<T>(s: seq<T>, n: nat, m: nat)
    requires n + m <= |s|
    ensures s[n..][m..] == s[n + m..]
  {
  }

  lemma Regroup(c: Scalar, text: Text, rest: Text)
    ensures [c] + (text + [REPLACEMENT] + rest) == ([c] + text) + [REPLACEMENT] + rest
  {
  }

  class Utf8Buffer {
    var pending: seq<Byte>
    /** Everything pushed since the last flush, and everything said about it. */
    ghost var fed: seq<Byte>
    ghost var said: Text

    ghost predicate Valid()
      reads this
    {
      Streamed(fed) == (said, pending)
    }

    constructor ()
      ensures Valid() && fed == [] && said == [] && pending == []
    {
      pending, fed, said := [], [], [];
    }

    /** Append bytes and return all the text that is now complete. */
    method Push(bytes: seq<Byte>) returns (out: Option<Text>)
      requires Valid()
      modifies this
      ensures Valid() && fed == old(fed) + bytes && |pending| <= 3
      ensures said == old(said) + (if out.Some? then out.value else [])
      ensures out.Some? ==> out.value != []
    {
      StreamedInTwo(fed, bytes);
      HeldBackIsBeginning(fed + bytes);
      hide Streamed;
      fed := fed + bytes;
      pending := pending + bytes;
      var text := Drain();
      said := said + text;
      out := if text == [] then None else Some(text);
    }

    /** Take the complete text off the front of the pending bytes, replacing what is broken. */
    method Drain() returns (text: Text)
      modifies this`pending
      ensures (text, pending) == Streamed(old(pending))
    {
      hide FromUtf8, Streamed;
      ghost var target := Streamed(pending);
      text := [];
      while true
        invariant text + Streamed(pending).0 == target.0 && Streamed(pending).1 == target.1
        decreases |pending|
      {
        VerdictIsStreamed(pending);
        match FromUtf8(pending) {
          case Valid(all) =>
            text := text + all;
            pending := [];
            break;
          case Stuck(part, upTo, len) =>
            match len {
              case Some(n) =>
                text := text + (part + [REPLACEMENT]);
                pending := pending[upTo + n..];
              case None =>
                text := text + part;
                pending := pending[upTo..];
                break;
            }
        }
      }
    }

    /** End of stream: what is held back can never be completed now. Together with everything said
        before, this is the lossy decoding of everything pushed. */
    method Finish() returns (out: Option<Text>)
      requires Valid()
      modifies this
      ensures Valid() && pending == [] && fed == [] && said == []
      ensures old(said) + (if out.Some? then out.value else []) == LossyDecode(old(fed))
      ensures out == if old(pending) == [] then None else Some([0xFFFD])
    {
      StreamedThenFlushed(fed);
      HeldBackIsBeginning(fed);
      if |pending| == 0 {
        fed, said := [], [];
        return None;
      }
      out := Some(LossyDecode(pending));
      pending, fed, said := [], [], [];
    }
  }

  /** Every chunking of a byte string, pushed and then flushed, gives its one-shot lossy decoding; and
      a chunking of well-formed text gives the text itself. */
  method DecodeChunks(chunks: seq<seq<Byte>>) returns (text: Text)
    ensures text == LossyDecode(Joined(chunks))
    ensures forall original: Text :: Joined(chunks) == EncodingOf(original) ==> text == original
  {
    var buffer := new Utf8Buffer();
    text := [];
    for i := 0 to |chunks|
      invariant fresh(buffer) && buffer.Valid() && buffer.fed == Joined(chunks[..i]) && buffer.said == text
    {
      assert chunks[..i + 1][..i] == chunks[..i];
      var out := buffer.Push(chunks[i]);
      text := text + if out.Some? then out.value else [];
    }
    assert chunks[..|chunks|] == chunks;
    var rest := buffer.Finish();
    text := text + if rest.Some? then rest.value else [];
    forall original: Text | Joined(chunks) == EncodingOf(original)
      ensures text == original
    {
      TextRoundTrips(original);
    }
  }

  function Joined(chunks: seq<seq<Byte>>): seq<Byte> {
    if chunks == [] then [] else Joined(chunks[..|chunks| - 1]) + chunks[|chunks| - 1]
  }
}
