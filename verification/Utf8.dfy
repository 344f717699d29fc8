/**
  Strings as the bytes Rust holds them in: sequences that are valid UTF-8 by the
  grammar in section 4 of RFC 3629. The splitters of the Telegram and WeChat channels
  cut such bytes; the reference they must agree with is the sequence of characters.
 */
module Utf8 {

  type Byte = b: int | 0 <= b < 256

  predicate Tail(b: Byte) {
    0x80 <= b <= 0xBF
  }

  /** Number of bytes announced by a leading byte, zero when it cannot lead. */
  function LeadLen(b: Byte): (n: nat)
    ensures n <= 4
  {
    if b <= 0x7F then 1
    else if 0xC2 <= b <= 0xDF then 2
    else if 0xE0 <= b <= 0xEF then 3
    else if 0xF0 <= b <= 0xF4 then 4
    else 0
  }

  /** The second byte is further restricted after four of the leading bytes. */
  predicate SecondOk(lead: Byte, second: Byte) {
    && Tail(second)
    && (lead == 0xE0 ==> 0xA0 <= second)
    && (lead == 0xED ==> second <= 0x9F)
    && (lead == 0xF0 ==> 0x90 <= second)
    && (lead == 0xF4 ==> second <= 0x8F)
  }

  /** Exactly one encoded character. */
  predicate IsChar(c: seq<Byte>) {
    && |c| > 0
    && |c| == LeadLen(c[0])
    && (|c| > 1 ==> SecondOk(c[0], c[1]))
    && (|c| > 2 ==> Tail(c[2]))
    && (|c| > 3 ==> Tail(c[3]))
  }

  /** Length of the character a string starts with, zero when it starts with none. */
  function HeadLen(s: seq<Byte>): (n: nat)
    ensures n <= |s| && n <= 4
    ensures n > 0 ==> IsChar(s[..n])
  {
    if s != [] && 0 < LeadLen(s[0]) <= |s| && IsChar(s[..LeadLen(s[0])]) then LeadLen(s[0]) else 0
  }

  /** Valid UTF-8: a sequence of encoded characters. */
  predicate Valid(s: seq<Byte>)
    decreases |s|
  {
    s == [] || (HeadLen(s) > 0 && Valid(s[HeadLen(s)..]))
  }

  /** The characters of a string, up to the first byte that starts none. */
  function Chars(s: seq<Byte>): (cs: seq<seq<Byte>>)
    decreases |s|
  {
    if HeadLen(s) == 0 then [] else [s[..HeadLen(s)]] + Chars(s[HeadLen(s)..])
  }

  function Flatten(cs: seq<seq<Byte>>): seq<Byte> {
    if cs == [] then [] else cs[0] + Flatten(cs[1..])
  }

  /** `str::is_char_boundary`, which looks at one byte only. */
  predicate IsCharBoundary(s: seq<Byte>, i: nat) {
    i == 0 || i == |s| || (i < |s| && !Tail(s[i]))
  }

  lemma ConsChar(c: seq<Byte>, s: seq<Byte>)
    requires IsChar(c)
    ensures Valid(c + s) <==> Valid(s)
    ensures Valid(s) ==> Chars(c + s) == [c] + Chars(s)
  {
    assert (c + s)[..|c|] == c && (c + s)[|c|..] == s;
  }

  /** Decoding and concatenating gives the string back. */
  lemma {:induction false} FlattenChars(s: seq<Byte>)
    requires Valid(s)
    ensures Flatten(Chars(s)) == s
    decreases |s|
  {
    if s != [] {
      FlattenChars(s[HeadLen(s)..]);
      assert Chars(s)[1..] == Chars(s[HeadLen(s)..]);
    }
  }

  /** The one-byte test finds exactly the positions where a valid string can be cut. */
  lemma {:induction false} BoundaryIsCharEdge(s: seq<Byte>, i: nat)
    requires Valid(s) && i <= |s|
    ensures IsCharBoundary(s, i) <==> Valid(s[..i])
    ensures IsCharBoundary(s, i) ==> Valid(s[i..])
    decreases |s|
  {
    if i == 0 {
      assert s[..0] == [] && s[0..] == s;
    } else {
      var n := HeadLen(s);
      var rest := s[n..];
      if i < n {
        assert s[..n][i] == s[i];
        assert Tail(s[i]);
        assert s[..i][0] == s[0];
      } else {
        BoundaryIsCharEdge(rest, i - n);
        assert s[..i] == s[..n] + rest[..i - n];
        ConsChar(s[..n], rest[..i - n]);
        assert s[i..] == rest[i - n..];
      }
    }
  }

  /** A cut point is never more than three bytes back. */
  lemma {:induction false} BoundaryNearby(s: seq<Byte>, i: nat) returns (j: nat)
    requires Valid(s) && i <= |s|
    ensures j <= i < j + 4 && IsCharBoundary(s, j)
    decreases |s|
  {
    if i == 0 || s == [] {
      j := 0;
    } else {
      var n := HeadLen(s);
      if i < n {
        j := 0;
      } else {
        var k := BoundaryNearby(s[n..], i - n);
        j := k + n;
        if k == 0 && n < |s| {
          assert Valid(s[n..]) && s[n..][0] == s[n];
        }
      }
    }
  }

  /** `truncate_utf8_bytes`: the longest whole-character prefix within a byte limit. */
  method TruncateUtf8Bytes(value: seq<Byte>, limit: nat) returns (r: seq<Byte>)
    requires Valid(value)
    ensures r <= value && |r| <= limit && Valid(r)
    ensures |value| <= limit ==> r == value
    ensures forall j :: |r| < j <= |value| && j <= limit ==> !Valid(value[..j])
    ensures limit < |value| ==> limit - |r| <= 3
  {
    hide HeadLen, Valid;
    if |value| <= limit {
      return value;
    }
    ghost var near := BoundaryNearby(value, limit);
    var end := limit;
    while !IsCharBoundary(value, end)
      invariant near <= end <= limit
      invariant forall j :: end < j <= limit ==> !Valid(value[..j])
      decreases end
    {
      BoundaryIsCharEdge(value, end);
      end := end - 1;
    }
    BoundaryIsCharEdge(value, end);
    r := value[..end];
  }

  /** Byte length of the first `k` characters, or of all of them. */
  function Advance(s: seq<Byte>, k: nat): (n: nat)
    ensures n <= |s|
    decreases k
  {
    if k == 0 || HeadLen(s) == 0 then 0
    else HeadLen(s) + Advance(s[HeadLen(s)..], k - 1)
  }

  /** Position `n` cuts off whole characters: `k` of them, or all there are. */
  predicate CutsOff(s: seq<Byte>, n: nat, k: nat) {
    && n <= |s|
    && Valid(s[..n]) && Valid(s[n..])
    && |Chars(s[..n])| <= k
    && (|Chars(s[..n])| == k || n == |s|)
  }

  lemma {:induction false} AdvanceCutsOff(s: seq<Byte>, k: nat)
    requires Valid(s)
    ensures CutsOff(s, Advance(s, k), k)
    decreases k
  {
    hide IsChar, Chars, CutsOff;
    if k == 0 || s == [] {
      NothingCutOff(s, k);
    } else {
      var c, rest := s[..HeadLen(s)], s[HeadLen(s)..];
      AdvanceCutsOff(rest, k - 1);
      ConsCutsOff(c, rest, Advance(rest, k - 1), k - 1);
      assert s == c + rest;
    }
  }

  lemma NothingCutOff(s: seq<Byte>, k: nat)
    requires Valid(s) && (k == 0 || s == [])
    ensures CutsOff(s, 0, k)
  {
    assert s[..0] == [] && s[0..] == s;
  }

  lemma ConsCutsOff(c: seq<Byte>, rest: seq<Byte>, m: nat, k: nat)
    requires IsChar(c) && CutsOff(rest, m, k)
    ensures CutsOff(c + rest, |c| + m, k + 1)
  {
    assert (c + rest)[..|c| + m] == c + rest[..m];
    assert (c + rest)[|c| + m..] == rest[m..];
    ConsChar(c, rest[..m]);
  }

  /** Cutting a non-empty string makes progress and leaves a valid rest. */
  lemma AdvanceProgress(s: seq<Byte>, k: nat)
    requires Valid(s) && s != [] && 0 < k
    ensures 0 < Advance(s, k) <= |s| && Valid(s[Advance(s, k)..])
  {
    AdvanceCutsOff(s, k);
  }

  /** The pieces `split_message` cuts a string into. */
  function Pieces(s: seq<Byte>, maxLen: nat): seq<seq<Byte>>
    requires Valid(s) && 0 < maxLen
    decreases |s|
  {
    if s == [] then []
    else
      AdvanceProgress(s, maxLen);
      var n := Advance(s, maxLen);
      [s[..n]] + Pieces(s[n..], maxLen)
  }

  ghost predicate Piece(c: seq<Byte>, maxLen: nat) {
    c != [] && Valid(c) && |Chars(c)| <= maxLen
  }

  ghost predicate FullPiece(c: seq<Byte>, maxLen: nat) {
    Valid(c) && |Chars(c)| == maxLen
  }

  /** What a split must be: whole characters, every piece but the last filled to the limit. */
  ghost predicate IsSplit(chunks: seq<seq<Byte>>, s: seq<Byte>, maxLen: nat) {
    && Flatten(chunks) == s
    && (forall i :: 0 <= i < |chunks| ==> Piece(chunks[i], maxLen))
    && (forall i :: 0 <= i < |chunks| - 1 ==> FullPiece(chunks[i], maxLen))
  }

  /** The cutting loop makes progress exactly for a positive limit; at zero it cuts empty chunks for ever. */
  lemma ProgressIff(s: seq<Byte>, k: nat)
    requires Valid(s) && s != []
    ensures Advance(s, k) > 0 <==> k > 0
  {
    if k > 0 { AdvanceProgress(s, k); }
  }

  lemma FirstPiece(s: seq<Byte>, maxLen: nat)
    requires Valid(s) && s != [] && 0 < maxLen
    ensures Piece(s[..Advance(s, maxLen)], maxLen)
    ensures FullPiece(s[..Advance(s, maxLen)], maxLen) || Advance(s, maxLen) == |s|
  {
    AdvanceProgress(s, maxLen);
    AdvanceCutsOff(s, maxLen);
  }

  /** The pieces concatenate to the text, cut only between characters and fill the limit. */
  lemma {:induction false} PiecesAreSplit(s: seq<Byte>, maxLen: nat)
    requires Valid(s) && 0 < maxLen
    ensures IsSplit(Pieces(s, maxLen), s, maxLen)
    decreases |s|
  {
    hide Piece, FullPiece, Valid, Advance;
    if s != [] {
      AdvanceProgress(s, maxLen);
      FirstPiece(s, maxLen);
      var n := Advance(s, maxLen);
      var rest := Pieces(s[n..], maxLen);
      PiecesAreSplit(s[n..], maxLen);
      var all := Pieces(s, maxLen);
      assert all == [s[..n]] + rest && all[1..] == rest;
      assert s == s[..n] + s[n..];
      forall i | 0 <= i < |all| ensures Piece(all[i], maxLen) {
        if i > 0 { assert all[i] == rest[i - 1]; }
      }
      forall i | 0 <= i < |all| - 1 ensures FullPiece(all[i], maxLen) {
        if i > 0 { assert all[i] == rest[i - 1]; }
      }
    }
  }

  /** The cutting loop of `split_message`. */
  method CutPieces(text: seq<Byte>, maxLen: nat) returns (chunks: seq<seq<Byte>>)
    requires Valid(text) && 0 < maxLen
    ensures chunks == Pieces(text, maxLen)
  {
    hide HeadLen, Valid, Advance;
    chunks := [];
    var start := 0;
    assert text[0..] == text && [] + Pieces(text, maxLen) == Pieces(text, maxLen);
    while start < |text|
      invariant 0 <= start <= |text| && Valid(text[start..])
      invariant chunks + Pieces(text[start..], maxLen) == Pieces(text, maxLen)
    {
      var end := start + Advance(text[start..], maxLen);
      PiecesStep(text, start, maxLen, chunks);
      chunks := chunks + [text[start..end]];
      start := end;
    }
    assert chunks + [] == chunks;
  }

  /**
    `split_message`. A text within the limit is returned whole; a longer one is cut into
    pieces. With a limit of zero the source's loop makes no progress on a non-empty text,
    so that call is excluded.
   */
  method SplitMessage(text: seq<Byte>, maxLen: nat) returns (chunks: seq<seq<Byte>>)
    requires Valid(text) && (0 < maxLen || text == [])
    ensures |Chars(text)| <= maxLen ==> chunks == [text]
    ensures |Chars(text)| > maxLen ==> IsSplit(chunks, text, maxLen)
  {
    if |Chars(text)| <= maxLen {
      return [text];
    }
    chunks := CutPieces(text, maxLen);
    PiecesAreSplit(text, maxLen);
  }

  lemma PiecesStep(text: seq<Byte>, start: nat, maxLen: nat, chunks: seq<seq<Byte>>)
    requires start < |text| && Valid(text[start..]) && 0 < maxLen
    ensures var end := start + Advance(text[start..], maxLen);
            && start < end <= |text|
            && Valid(text[end..])
            && chunks + [text[start..end]] + Pieces(text[end..], maxLen) == chunks + Pieces(text[start..], maxLen)
  {
    hide HeadLen, Valid, Advance;
    var rest := text[start..];
    AdvanceProgress(rest, maxLen);
    var end := start + Advance(rest, maxLen);
    assert text[start..end] == rest[..end - start] && text[end..] == rest[end - start..];
    assert Pieces(rest, maxLen) == [text[start..end]] + Pieces(text[end..], maxLen);
  }
}
