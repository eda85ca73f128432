/** Byte buffers to base64 text and back, processed in chunks of 8192, and
    the data URL (section 3 of RFC 2397) built from an uploaded file. */
module FileUtils {
  import opened Common
  import opened Base64

  const ChunkSize: nat := 8192
  const InvalidBufferError := "Invalid ArrayBuffer provided"
  const InvalidBase64Error := "Invalid base64 string provided"
  const ToArrayBufferFailure := "Failed to convert base64 to ArrayBuffer: "
  const ReadFailure := "Failed to read file"

  /** `arrayBufferToBase64`. A missing or empty buffer throws; otherwise the
      chunks' characters are accumulated into one binary string and handed to
      `btoa`, which cannot fail on it. */
  method ArrayBufferToBase64(buffer: Option<seq<Byte>>) returns (r: Result<string>)
    ensures buffer.None? || buffer.value == [] ==> r == Err(InvalidBufferError)
    ensures buffer.Some? && buffer.value != [] ==> r == Ok(EncodeBytes(buffer.value))
  {
    if buffer.None? || |buffer.value| == 0 {
      return Err(InvalidBufferError);
    }
    var bytes := buffer.value;
    var n := |bytes|;
    var binaryString := "";
    var i := 0;
    while i < n
      invariant 0 <= i
      invariant i <= n ==> binaryString == FromCharCodes(bytes[..i])
      invariant i > n ==> binaryString == FromCharCodes(bytes)
    {
      // `uint8Array.slice(i, i + chunkSize)` stops at the end of the buffer
      var end := if i + ChunkSize < n then i + ChunkSize else n;
      AppendChunk(bytes, i, end);
      binaryString := binaryString + FromCharCodes(bytes[i..end]);
      i := i + ChunkSize;
      if end == n {
        assert bytes[..end] == bytes;
      }
    }
    assert binaryString == FromCharCodes(bytes) by {
      if i == n {
        assert bytes[..i] == bytes;
      }
    }
    assert CharCodes(binaryString) == bytes;
    var encoded := Btoa(binaryString);
    r := Ok(encoded.value);
  }

  /** Appending the characters of the next chunk extends the characters of the
      prefix read so far. */
  lemma AppendChunk(bytes: seq<Byte>, i: nat, end: nat)
    requires i <= end <= |bytes|
    ensures FromCharCodes(bytes[..i]) + FromCharCodes(bytes[i..end]) == FromCharCodes(bytes[..end])
  {
  }

  /** `base64ToArrayBuffer`. An empty string throws; text `atob` rejects is
      rethrown with the fixed prefix; otherwise a fresh buffer of the decoded
      length is filled chunk by chunk, index `j` receiving `charCodeAt(j)`. */
  method Base64ToArrayBuffer(base64: string) returns (r: Result<seq<Byte>>)
    ensures base64 == "" ==> r == Err(InvalidBase64Error)
    ensures base64 != "" && DecodeBytes(base64).None? ==> r == Err(ToArrayBufferFailure + AtobError)
    ensures base64 != "" && DecodeBytes(base64).Some? ==> r == Ok(DecodeBytes(base64).value)
  {
    if |base64| == 0 {
      return Err(InvalidBase64Error);
    }
    var decoded := Atob(base64);
    if decoded.Err? {
      return Err(ToArrayBufferFailure + decoded.error);
    }
    var binaryString := decoded.value;
    var n := |binaryString|;
    var buffer := new Byte[n];
    var i := 0;
    while i < n
      invariant 0 <= i
      invariant forall k :: 0 <= k < i && k < n ==> buffer[k] == binaryString[k] as int
    {
      var end := if i + ChunkSize < n then i + ChunkSize else n;
      var j := i;
      while j < end
        invariant i <= j <= end
        invariant forall k :: 0 <= k < j ==> buffer[k] == binaryString[k] as int
      {
        buffer[j] := binaryString[j] as int;
        j := j + 1;
      }
      i := i + ChunkSize;
    }
    assert buffer[..] == CharCodes(binaryString);
    r := Ok(buffer[..]);
  }

  /** Converting a non-empty buffer to base64 and back gives the same bytes. */
  method BufferRoundTrip(bytes: seq<Byte>) returns (back: Result<seq<Byte>>)
    requires bytes != []
    ensures back == Ok(bytes)
  {
    var text := ArrayBufferToBase64(Some(bytes));
    DecodeEncode(bytes);
    back := Base64ToArrayBuffer(text.value);
  }

  /** `data:<type>;base64,<payload>`. */
  function DataUrl(mimeType: string, base64: string): (r: string)
    ensures StartsWith(r, "data:")
    ensures r == "data:" + mimeType + ";base64," + base64
  {
    "data:" + mimeType + ";base64," + base64
  }

  /** What the `FileReader` delivered: an error event, a `null` result, or the
      file's bytes. */
  datatype ReadOutcome = ReadFailed(reason: string) | ReadNull | ReadBytes(bytes: seq<Byte>)

  /** `fileToBase64DataURL`: the promise's settled value, `Err` for a rejection. */
  method FileToBase64DataUrl(mimeType: string, read: ReadOutcome) returns (r: Result<string>)
    ensures read.ReadFailed? ==> r == Err(read.reason)
    ensures read.ReadNull? ==> r == Err(ReadFailure)
    ensures read.ReadBytes? && read.bytes == [] ==> r == Err(InvalidBufferError)
    ensures read.ReadBytes? && read.bytes != [] ==> r == Ok(DataUrl(mimeType, EncodeBytes(read.bytes)))
  {
    match read
    case ReadFailed(reason) =>
      r := Err(reason);
    case ReadNull =>
      r := Err(ReadFailure);
    case ReadBytes(bytes) =>
      // an ArrayBuffer is truthy even when empty, so an empty file reaches the converter
      var base64 := ArrayBufferToBase64(Some(bytes));
      if base64.Err? {
        r := Err(base64.error);
      } else {
        r := Ok(DataUrl(mimeType, base64.value));
      }
  }
}
