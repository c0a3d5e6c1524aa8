/** Protobuf payloads in the cache: they travel as C strings, so NUL bytes are rewritten to '~' and back. */
module CacheText {

  const BUFFER_SIZE: nat := 2048

  function EncodedChar(c: char): char {
    if c == '\0' then '~' else c
  }

  function DecodedChar(c: char): char {
    if c == '~' then '\0' else c
  }

  function Encoded(payload: string): string {
    seq(|payload|, i requires 0 <= i < |payload| => EncodedChar(payload[i]))
  }

  function Decoded(text: string): string {
    seq(|text|, i requires 0 <= i < |text| => DecodedChar(text[i]))
  }

  /** The encoding keeps the length and has no NUL, so a C string carries it whole; reading it back gives the payload
      with every '~' of its own turned into NUL, hence the payload exactly if it had none. */
  lemma PayloadSurvivesIff(payload: string)
    ensures |Encoded(payload)| == |payload| && '\0' !in Encoded(payload)
    ensures Decoded(Encoded(payload)) == Decoded(payload)
    ensures Decoded(Encoded(payload)) == payload <==> '~' !in payload
  {
    var back := Decoded(Encoded(payload));
    if '~' in payload {
      var i :| 0 <= i < |payload| && payload[i] == '~';
      assert back[i] == '\0';
    }
  }

  /** Two payloads share an encoding exactly if they differ only in having '~' where the other has NUL. */
  lemma SameEncodingIff(p: string, q: string)
    ensures Encoded(p) == Encoded(q) <==> Decoded(p) == Decoded(q)
  {
    if |p| == |q| {
      forall i | 0 <= i < |p|
        ensures Encoded(p)[i] == Encoded(q)[i] <==> Decoded(p)[i] == Decoded(q)[i]
      {
      }
    } else {
      assert |Encoded(p)| != |Encoded(q)| && |Decoded(p)| != |Decoded(q)|;
    }
  }

  /** replaceFromZero, in place on the first `byteSize` characters. */
  method ReplaceFromZero(value: array<char>, byteSize: nat)
    requires byteSize <= value.Length
    modifies value
    ensures value[..byteSize] == Encoded(old(value[..byteSize]))
    ensures value[byteSize..] == old(value[byteSize..])
  {
    for i := 0 to byteSize
      invariant forall j :: 0 <= j < i ==> value[j] == EncodedChar(old(value[j]))
      invariant forall j :: i <= j < value.Length ==> value[j] == old(value[j])
    {
      if value[i] == '\0' {
        value[i] := '~';
      }
    }
  }

  /** replaceToZero, in place on the whole string. */
  method ReplaceToZero(value: array<char>)
    modifies value
    ensures value[..] == Decoded(old(value[..]))
  {
    for i := 0 to value.Length
      invariant forall j :: 0 <= j < i ==> value[j] == DecodedChar(old(value[j]))
      invariant forall j :: i <= j < value.Length ==> value[j] == old(value[j])
    {
      if value[i] == '~' {
        value[i] := '\0';
      }
    }
  }

  /** What a function taking a C string reads: the characters before the first NUL. */
  method ReadCString(value: array<char>, ghost end: nat) returns (text: string)
    requires end < value.Length && value[end] == '\0' && '\0' !in value[..end]
    ensures text == value[..end]
  {
    var i := 0;
    text := "";
    while value[i] != '\0'
      invariant 0 <= i <= end && text == value[..i]
      decreases end - i
    {
      assert value[..i + 1] == value[..i] + [value[i]];
      text := text + [value[i]];
      i := i + 1;
    }
  }

  /** setpb up to the SETEX command: the value handed over is the whole encoded payload. */
  method SetPb(payload: string) returns (stored: string)
    requires |payload| < BUFFER_SIZE
    ensures stored == Encoded(payload)
  {
    var value := new char[BUFFER_SIZE];
    forall i | 0 <= i < |payload| {
      value[i] := payload[i];
    }
    assert value[..|payload|] == payload;
    ReplaceFromZero(value, |payload|);
    value[|payload|] := '\0';
    PayloadSurvivesIff(payload);
    stored := ReadCString(value, |payload|);
  }

  /** getpb from the reply on: the text handed to the parser. */
  method GetPb(stored: string) returns (text: string)
    ensures text == Decoded(stored)
  {
    var value := new char[|stored|](i requires 0 <= i < |stored| => stored[i]);
    assert value[..] == stored;
    ReplaceToZero(value);
    text := value[..];
  }

  /** A payload without '~' comes back from the cache byte for byte, and no other does. */
  method StoreAndFetch(payload: string) returns (text: string)
    requires |payload| < BUFFER_SIZE
    ensures text == payload <==> '~' !in payload
  {
    PayloadSurvivesIff(payload);
    var stored := SetPb(payload);
    text := GetPb(stored);
  }
}
