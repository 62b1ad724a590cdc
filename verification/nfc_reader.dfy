/**
 * The tag payload translator and the page-reading logic of the NFC reader.
 *
 * A tag's user memory is read in six 16-byte blocks starting at page 6 into a
 * 176-byte buffer; the content identifier starts at byte 26 and ends at the first
 * NULL (0x00) or Terminator (0xFE) byte, the two TLV markers of the NFC Forum
 * Type 2 Tag data format.  URL path separators become `:` and the fixed prefix
 * `spotify:` is put in front.  The MFRC522 chip is replaced by a function from
 * page address to the outcome of a 16-byte read.
 */
module NfcReader {
  import opened Arduino

  const PAGE_ADDRESS: nat := 6
  const BUFFER_SIZE: nat := 176
  const URI_START_OFFSET: nat := 26
  /** Number of 16-byte block reads `readSpotifyUri` performs. */
  const BLOCK_READS: nat := 6
  const BLOCK_SIZE: nat := 16
  const URI_PREFIX: string := "spotify:"
  const NO_URI_MESSAGE: string := "No valid Spotify URI found on tag"
  const READ_FAILED_PREFIX: string := "Read failed: "

  /** Reader state for non-blocking operation. */
  datatype NfcState = Idle | CardDetected | Reading | ReadComplete | ReadFailed

  /** Result of one read operation. */
  datatype NfcReadResult = NfcReadResult(success: bool, spotifyUri: string, errorMessage: string)

  /** The 16 data bytes of one block read. */
  type Block = s: seq<byte> | |s| == 16 witness seq(16, _ => 0)

  /** Outcome of reading the block that starts at one page address. */
  datatype BlockRead = BlockOk(data: Block) | BlockFailed(statusName: string)

  /** The card in the field: the outcome of a block read at each page address. */
  type Card = nat -> BlockRead

  // ---------------------------------------------------------------------------
  // Tag payload translator
  // ---------------------------------------------------------------------------

  /** NULL and Terminator TLV bytes end the payload. */
  predicate IsEndMarker(b: byte)
  {
    b == 0xFE || b == 0x00
  }

  /** A path separator becomes the identifier delimiter; every other byte is kept. */
  function TranslateByte(b: byte): (c: char)
    ensures c != '/'
    ensures b != '/' as int ==> c as int == b
  {
    if b == '/' as int then ':' else b as char
  }

  /** Index of the first end marker at or after `i`, or the end of `data`. */
  function ScanEnd(data: seq<byte>, i: nat): (e: nat)
    requires i <= |data|
    ensures i <= e <= |data|
    ensures e < |data| ==> IsEndMarker(data[e])
    ensures forall k :: i <= k < e ==> !IsEndMarker(data[k])
    decreases |data| - i
  {
    if i == |data| || IsEndMarker(data[i]) then i else ScanEnd(data, i + 1)
  }

  /** The characters the translation loop appends, starting at index `i`. */
  function CopyFrom(data: seq<byte>, i: nat): (r: string)
    requires i <= |data|
    ensures |r| == ScanEnd(data, i) - i
    ensures forall k :: 0 <= k < |r| ==> r[k] == TranslateByte(data[i + k])
    decreases |data| - i
  {
    if i == |data| || IsEndMarker(data[i]) then ""
    else [TranslateByte(data[i])] + CopyFrom(data, i + 1)
  }

  /** `parseTagData`: the prefix followed by the translated payload. */
  function ParseTagData(data: seq<byte>): (uri: string)
    requires |data| == BUFFER_SIZE
    ensures |uri| == |URI_PREFIX| + (ScanEnd(data, URI_START_OFFSET) - URI_START_OFFSET)
    ensures |uri| <= |URI_PREFIX| + BUFFER_SIZE - URI_START_OFFSET
    ensures uri[..|URI_PREFIX|] == URI_PREFIX
    ensures uri != ""
    ensures Lacks(uri, '/')
    ensures forall k :: |URI_PREFIX| <= k < |uri| ==>
              uri[k] == TranslateByte(data[k - |URI_PREFIX| + URI_START_OFFSET])
  {
    var body := CopyFrom(data, URI_START_OFFSET);
    var uri := URI_PREFIX + body;
    assert forall k :: |URI_PREFIX| <= k < |uri| ==> uri[k] == body[k - |URI_PREFIX|];
    uri
  }

  // ---------------------------------------------------------------------------
  // Page reads
  // ---------------------------------------------------------------------------

  /** Page address of the `i`-th block read. */
  function PageOf(i: nat): nat
  {
    PAGE_ADDRESS + 4 * i
  }

  /** True when the block reads `0..n` all succeed. */
  predicate BlocksOk(card: Card, n: nat)
  {
    forall i :: 0 <= i < n ==> card(PageOf(i)).BlockOk?
  }

  /** The bytes the first `n` successful block reads deliver, in order. */
  function Blocks(card: Card, n: nat): (s: seq<byte>)
    requires BlocksOk(card, n)
    ensures |s| == BLOCK_SIZE * n
    ensures forall i, j :: 0 <= i < n && 0 <= j < BLOCK_SIZE ==>
              s[BLOCK_SIZE * i + j] == card(PageOf(i)).data[j]
  {
    if n == 0 then [] else
      var prev := Blocks(card, n - 1);
      var s := prev + card(PageOf(n - 1)).data;
      assert forall p :: 0 <= p < |prev| ==> s[p] == prev[p];
      s
  }

  /** Index of the first failing block read among `0..BLOCK_READS`, if any. */
  function FirstFailure(card: Card, i: nat): (k: nat)
    requires i <= BLOCK_READS && BlocksOk(card, i)
    ensures i <= k <= BLOCK_READS
    ensures BlocksOk(card, k)
    ensures k < BLOCK_READS ==> card(PageOf(k)).BlockFailed?
    decreases BLOCK_READS - i
  {
    if i == BLOCK_READS || card(PageOf(i)).BlockFailed? then i else FirstFailure(card, i + 1)
  }

  class Reader {
    var state: NfcState
    /** The flag the interrupt handler raises; cleared with the chip's IRQ register. */
    var cardDetectedFlag: bool

    constructor ()
      ensures state == Idle && !cardDetectedFlag
    {
      state := Idle;
      cardDetectedFlag := false;
    }

    /** `haltCard`: stop talking to the card and return to IDLE. */
    method HaltCard()
      modifies this
      ensures state == Idle && !cardDetectedFlag
    {
      cardDetectedFlag := false;
      state := Idle;
    }

    /**
     * `readSpotifyUri`: read the six blocks into `fullData`, stop at the first
     * failing read, and translate the buffer.  `fullData` is the caller's stack
     * buffer; bytes 96..175 keep whatever they held.
     */
    method ReadSpotifyUri(card: Card, fullData: array<byte>) returns (result: NfcReadResult)
      requires fullData.Length == BUFFER_SIZE
      modifies this, fullData
      ensures state == Idle && !cardDetectedFlag
      ensures result.success <==> BlocksOk(card, BLOCK_READS)
      ensures !result.success ==>
                var k := FirstFailure(card, 0);
                k < BLOCK_READS &&
                result == NfcReadResult(false, "", READ_FAILED_PREFIX + card(PageOf(k)).statusName) &&
                fullData[..BLOCK_SIZE * k] == Blocks(card, k) &&
                fullData[BLOCK_SIZE * k..] == old(fullData[BLOCK_SIZE * k..])
      ensures result.success ==>
                fullData[..BLOCK_SIZE * BLOCK_READS] == Blocks(card, BLOCK_READS) &&
                fullData[BLOCK_SIZE * BLOCK_READS..] == old(fullData[BLOCK_SIZE * BLOCK_READS..]) &&
                result == NfcReadResult(true, ParseTagData(fullData[..]), "")
    {
      state := Reading;
      ghost var orig := fullData[..];
      var i := 0;
      while i < BLOCK_READS
        invariant 0 <= i <= BLOCK_READS
        invariant BlocksOk(card, i)
        invariant fullData[..BLOCK_SIZE * i] == Blocks(card, i)
        invariant fullData[BLOCK_SIZE * i..] == orig[BLOCK_SIZE * i..]
      {
        var read := card(PageOf(i));
        if read.BlockFailed? {
          FirstFailureFrom(card, i);
          result := NfcReadResult(false, "", READ_FAILED_PREFIX + read.statusName);
          state := ReadFailed;
          HaltCard();
          return;
        }
        ghost var before := fullData[..];
        CopyBlock(fullData, BLOCK_SIZE * i, read.data);
        BlockStep(before, fullData[..], orig, BLOCK_SIZE * i, read.data);
        assert Blocks(card, i + 1) == Blocks(card, i) + read.data;
        i := i + 1;
      }
      var uri := ParseTagData(fullData[..]);
      var success := uri != "";
      result := NfcReadResult(success, uri, if success then "" else NO_URI_MESSAGE);
      state := if success then ReadComplete else ReadFailed;
      HaltCard();
    }
  }

  /** The inner copy loop of `readSpotifyUri`: one block into the buffer at `off`. */
  method CopyBlock(buf: array<byte>, off: nat, data: Block)
    requires off + BLOCK_SIZE <= buf.Length
    modifies buf
    ensures buf[..off] == old(buf[..off])
    ensures buf[off..off + BLOCK_SIZE] == data
    ensures buf[off + BLOCK_SIZE..] == old(buf[off + BLOCK_SIZE..])
  {
    var j := 0;
    while j < BLOCK_SIZE
      invariant 0 <= j <= BLOCK_SIZE
      invariant buf[..off] == old(buf[..off])
      invariant buf[off..off + j] == data[..j]
      invariant buf[off + j..] == old(buf[off + j..])
    {
      buf[off + j] := data[j];
      j := j + 1;
    }
  }

  /** One block copied at `off`: the prefix grows by the block, the rest still holds the original bytes. */
  lemma BlockStep(before: seq<byte>, after: seq<byte>, orig: seq<byte>, off: nat, data: Block)
    requires |before| == |after| == |orig| && off + BLOCK_SIZE <= |after|
    requires after[..off] == before[..off] && after[off..off + BLOCK_SIZE] == data
    requires after[off + BLOCK_SIZE..] == before[off + BLOCK_SIZE..]
    requires before[off..] == orig[off..]
    ensures after[..off + BLOCK_SIZE] == before[..off] + data
    ensures after[off + BLOCK_SIZE..] == orig[off + BLOCK_SIZE..]
  {
    assert after[..off + BLOCK_SIZE] == after[..off] + after[off..off + BLOCK_SIZE];
    assert before[off + BLOCK_SIZE..] == before[off..][BLOCK_SIZE..];
    assert orig[off + BLOCK_SIZE..] == orig[off..][BLOCK_SIZE..];
  }

  /** When the reads before `i` succeed and read `i` fails, `i` is the first failure. */
  lemma FirstFailureFrom(card: Card, i: nat)
    requires i < BLOCK_READS && BlocksOk(card, i) && card(PageOf(i)).BlockFailed?
    ensures FirstFailure(card, 0) == i
  {
    var k := FirstFailure(card, 0);
    assert !BlocksOk(card, i + 1);
  }

  // ---------------------------------------------------------------------------
  // Writing a tag and reading it back
  // ---------------------------------------------------------------------------

  /** The bytes of a string whose characters are all single bytes. */
  function AsciiBytes(s: string): (b: seq<byte>)
    requires IsByteString(s)
    ensures |b| == |s| && forall k :: 0 <= k < |s| ==> b[k] == s[k] as int
  {
    seq(|s|, k requires 0 <= k < |s| => s[k] as int)
  }

  /** A URL path a tag can carry: single bytes, no end marker, fits the buffer. */
  predicate IsTagPath(path: string)
  {
    IsByteString(path) && |path| <= BUFFER_SIZE - URI_START_OFFSET &&
    Lacks(path, '\0') && Lacks(path, 0xFE as char)
  }

  /** The identifier a path denotes: every `/` becomes `:`. */
  function PathToId(path: string): (id: string)
    ensures |id| == |path| && Lacks(id, '/')
    ensures forall k :: 0 <= k < |path| && path[k] != '/' ==> id[k] == path[k]
  {
    seq(|path|, k requires 0 <= k < |path| => if path[k] == '/' then ':' else path[k])
  }

  /** A tag image holding `path` at the content offset, padded with NULL bytes. */
  function EncodeTag(path: string): (data: seq<byte>)
    requires IsTagPath(path)
    ensures |data| == BUFFER_SIZE
    ensures data[URI_START_OFFSET..URI_START_OFFSET + |path|] == AsciiBytes(path)
  {
    var data := seq(URI_START_OFFSET, _ => 0) + AsciiBytes(path)
      + seq(BUFFER_SIZE - URI_START_OFFSET - |path|, _ => 0);
    assert data[URI_START_OFFSET..URI_START_OFFSET + |path|] == AsciiBytes(path);
    data
  }

  /** The end of the payload of an encoded tag is the end of the path. */
  lemma EncodeTagEnd(path: string)
    requires IsTagPath(path)
    ensures ScanEnd(EncodeTag(path), URI_START_OFFSET) == URI_START_OFFSET + |path|
  {
    var data := EncodeTag(path);
    var end := URI_START_OFFSET + |path|;
    forall i | URI_START_OFFSET <= i < end
      ensures !IsEndMarker(data[i])
    {
      assert data[i] == data[URI_START_OFFSET..end][i - URI_START_OFFSET];
    }
    if end < |data| {
      assert IsEndMarker(data[end]);
    }
  }

  /** Reading back a tag written with `path` yields `spotify:` and the path's identifier. */
  lemma EncodeTagRoundTrip(path: string)
    requires IsTagPath(path)
    ensures ParseTagData(EncodeTag(path)) == URI_PREFIX + PathToId(path)
  {
    var data := EncodeTag(path);
    EncodeTagEnd(path);
    var uri := ParseTagData(data);
    var want := URI_PREFIX + PathToId(path);
    forall k | |URI_PREFIX| <= k < |uri|
      ensures uri[k] == want[k]
    {
      var j := k - |URI_PREFIX|;
      assert data[j + URI_START_OFFSET] == data[URI_START_OFFSET..URI_START_OFFSET + |path|][j];
    }
    assert uri[..|URI_PREFIX|] == want[..|URI_PREFIX|];
  }

  /** A path `kind/name` denotes the identifier `kind:name`. */
  lemma PathToIdOfPair(kind: string, name: string)
    requires Lacks(kind, '/') && Lacks(name, '/')
    ensures PathToId(kind + "/" + name) == kind + ":" + name
  {
    var path := kind + "/" + name;
    var want := kind + ":" + name;
    forall k | 0 <= k < |path|
      ensures PathToId(path)[k] == want[k]
    {
      if k < |kind| {
        assert path[k] == kind[k];
      } else if k > |kind| {
        assert path[k] == name[k - |kind| - 1];
      }
    }
  }

  /** The example path: a playlist kind and name joined by a separator. */
  const EXAMPLE_KIND: string := "playlist"
  const EXAMPLE_NAME: string := "37i9dQZF1DXcBWIGoYBM5M"

  lemma ExamplePathJoin()
    ensures "playlist/37i9dQZF1DXcBWIGoYBM5M" == EXAMPLE_KIND + "/" + EXAMPLE_NAME
  {
  }

  lemma ExamplePartsLackSeparator()
    ensures Lacks(EXAMPLE_KIND, '/') && Lacks(EXAMPLE_NAME, '/')
  {
  }

  lemma ExampleUriJoin()
    ensures URI_PREFIX + (EXAMPLE_KIND + ":" + EXAMPLE_NAME) == "spotify:playlist:37i9dQZF1DXcBWIGoYBM5M"
  {
  }

  lemma ExamplePathFits()
    ensures IsTagPath("playlist/37i9dQZF1DXcBWIGoYBM5M")
  {
    var path := "playlist/37i9dQZF1DXcBWIGoYBM5M";
    assert IsByteString(path);
    assert Lacks(path, '\0');
    assert Lacks(path, 0xFE as char);
  }

  /** The worked example: a playlist path on a tag reads as a playlist identifier. */
  lemma ExampleTagParses()
    ensures IsTagPath("playlist/37i9dQZF1DXcBWIGoYBM5M")
    ensures ParseTagData(EncodeTag("playlist/37i9dQZF1DXcBWIGoYBM5M"))
            == "spotify:playlist:37i9dQZF1DXcBWIGoYBM5M"
  {
    ExamplePathFits();
    ExamplePathJoin();
    ExamplePartsLackSeparator();
    ExampleUriJoin();
    PathToIdOfPair(EXAMPLE_KIND, EXAMPLE_NAME);
    EncodeTagRoundTrip(EXAMPLE_KIND + "/" + EXAMPLE_NAME);
  }
}
