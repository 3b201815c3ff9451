/** `MagicStringUtils`: strings cross the native boundary as zero-terminated
    UTF-8 byte buffers (C strings). */
module MagicStringUtils {
  import opened Wrappers
  import opened Utf8

  /** The shared buffer handed out for null and empty strings: one zero byte. */
  const EmptyByteArray: seq<Byte> := [0]

  /** `ToUtf8`: the UTF-8 bytes of the string followed by one zero byte; a null
      or empty string yields the shared `EmptyByteArray`. */
  function ToUtf8(str: Option<string>): (r: seq<Byte>)
    ensures str == None || str == Some("") ==> r == EmptyByteArray
    ensures str.Some? ==> |r| == |Encode(str.value)| + 1 && r[..|r| - 1] == Encode(str.value)
    ensures |r| > 0 && r[|r| - 1] == 0
  {
    if str.None? || str.value == "" then EmptyByteArray
    else Encode(str.value) + [0]
  }

  /** Position of the first zero byte: the length of the C string that starts
      the buffer. */
  function TerminatorIndex(buffer: seq<Byte>): (n: nat)
    requires 0 in buffer
    ensures n < |buffer| && buffer[n] == 0
    ensures forall k | 0 <= k < n :: buffer[k] != 0
  {
    if buffer[0] == 0 then 0 else TerminatorIndex(buffer[1..]) + 1
  }

  /** The string a C-string buffer holds: the bytes before the first zero,
      decoded; an immediately terminated buffer is the empty string. None
      stands for a prefix that is not well-formed UTF-8. */
  function ReadCString(buffer: seq<Byte>): Option<string>
    requires 0 in buffer
  {
    var n := TerminatorIndex(buffer);
    if n == 0 then Some("") else Decode(buffer[..n])
  }

  /** `FromUtf8`: scans the native buffer up to the first zero byte, then
      decodes exactly the bytes scanned. The buffer must be zero-terminated; the
      source reads native memory until it finds the terminator. */
  method FromUtf8(nativeUtf8: seq<Byte>) returns (r: Option<string>)
    requires 0 in nativeUtf8
    ensures r == ReadCString(nativeUtf8)
    ensures nativeUtf8[0] == 0 ==> r == Some("")
  {
    var i := 0;
    while nativeUtf8[i] != 0
      invariant i <= TerminatorIndex(nativeUtf8)
      decreases TerminatorIndex(nativeUtf8) - i
    {
      i := i + 1;
    }
    if i == 0 {
      return Some("");
    }
    r := Decode(nativeUtf8[..i]);
  }

  /** Round trip: a string without U+0000 comes back unchanged from its C-string
      buffer, because UTF-8 emits a zero byte only for U+0000. */
  lemma {:induction false} CStringRoundTrip(s: string)
    requires '\0' !in s
    ensures ReadCString(ToUtf8(Some(s))) == Some(s)
  {
    var buffer := ToUtf8(Some(s));
    var e := Encode(s);
    if s == "" {
      assert buffer == [0];
    } else {
      assert buffer == e + [0];
      assert 0 !in e;
      assert TerminatorIndex(buffer) == |e|;
      assert buffer[..|e|] == e;
      DecodeEncode(s);
    }
  }

  /** The other direction: a terminated buffer whose prefix is well-formed
      UTF-8 is reproduced, up to and including its terminator, by encoding the
      string read from it. */
  lemma CStringRereads(buffer: seq<Byte>)
    requires 0 in buffer && ReadCString(buffer).Some?
    ensures ToUtf8(ReadCString(buffer)) == buffer[..TerminatorIndex(buffer) + 1]
  {
    var n := TerminatorIndex(buffer);
    if n > 0 {
      var text := Decode(buffer[..n]).value;
      assert ReadCString(buffer) == Some(text);
      assert Encode(text) == buffer[..n] by {
        EncodeDecode(buffer[..n]);
      }
      assert text != "" by {
        assert Encode("") == [];
      }
      assert buffer[..n + 1] == buffer[..n] + [0];
    }
  }
}
