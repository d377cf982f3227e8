/** ZigbeeSecurityConfiguration (libnymea-zigbee/zigbeesecurityconfiguration.h):
    the network key and the global Trust Center link key, both kept as
    strings of hexadecimal digits, with a getter and a setter each. */
module ZigbeeSecurity {
  import opened Types

  /** The default global Trust Center link key: the well-known "ZigBeeAlliance09"
      key of the Zigbee Home Automation and Base Device Behavior
      specifications, written as 32 hexadecimal digits. */
  const DefaultGlobalTrustCenterLinkKey: string := "5A6967426565416C6C69616E63653039"

  /** The two keys as a value, the form in which a configuration is copied. */
  datatype SecurityKeys = SecurityKeys(networkKey: string, globalTrustCenterLinkKey: string)

  const DefaultSecurityKeys := SecurityKeys("", DefaultGlobalTrustCenterLinkKey)

  class SecurityConfiguration {
    var networkKey: string
    var globalTrustCenterLinkKey: string

    /** The keys this configuration holds, as a value. */
    function Keys(): SecurityKeys
      reads this
    {
      SecurityKeys(networkKey, globalTrustCenterLinkKey)
    }

    constructor ()
      ensures networkKey == ""
      ensures globalTrustCenterLinkKey == DefaultGlobalTrustCenterLinkKey
    {
      networkKey := "";
      globalTrustCenterLinkKey := DefaultGlobalTrustCenterLinkKey;
    }

    /** A configuration holding the given keys: the copy constructor a value
        type has in the source. */
    constructor Copy(keys: SecurityKeys)
      ensures Keys() == keys
    {
      networkKey := keys.networkKey;
      globalTrustCenterLinkKey := keys.globalTrustCenterLinkKey;
    }

    method NetworkKey() returns (key: string)
      ensures key == networkKey
    {
      key := networkKey;
    }

    /** Replaces the network key; the link key is not in the frame, so it
        keeps its value. */
    method SetNetworkKey(key: string)
      modifies this`networkKey
      ensures networkKey == key
    {
      networkKey := key;
    }

    method GlobalTrustCenterLinkKey() returns (key: string)
      ensures key == globalTrustCenterLinkKey
    {
      key := globalTrustCenterLinkKey;
    }

    /** Replaces the global Trust Center link key; the network key is not in
        the frame, so it keeps its value. */
    method SetGlobalTrustCenterlinkKey(key: string)
      modifies this`globalTrustCenterLinkKey
      ensures globalTrustCenterLinkKey == key
    {
      globalTrustCenterLinkKey := key;
    }
  }

  // ------------------------------------------------- Hexadecimal key strings

  predicate IsHexDigit(c: char) {
    '0' <= c <= '9' || 'A' <= c <= 'F' || 'a' <= c <= 'f'
  }

  /** The value of one hexadecimal digit, in either case. */
  function HexDigitValue(c: char): (r: Option<nat>)
    ensures r.Some? <==> IsHexDigit(c)
    ensures r.Some? ==> r.value < 16
  {
    if '0' <= c <= '9' then Some(c as int - '0' as int)
    else if 'A' <= c <= 'F' then Some(c as int - 'A' as int + 10)
    else if 'a' <= c <= 'f' then Some(c as int - 'a' as int + 10)
    else None
  }

  /** The upper-case digit of a value below 16, as the keys are written. */
  function HexDigit(v: nat): (c: char)
    requires v < 16
    ensures HexDigitValue(c) == Some(v)
  {
    if v < 10 then ('0' as int + v) as char else ('A' as int + v - 10) as char
  }

  /** The byte written as the two digits hi and lo. */
  function HexByte(hi: char, lo: char): uint8
    requires IsHexDigit(hi) && IsHexDigit(lo)
  {
    16 * HexDigitValue(hi).value + HexDigitValue(lo).value
  }

  /** Two digits per byte, most significant digit first. */
  function HexDecode(s: string): (r: Option<seq<uint8>>)
    ensures r.Some? ==> 2 * |r.value| == |s|
    decreases |s|
  {
    if |s| == 0 then Some([])
    else if |s| == 1 || !IsHexDigit(s[0]) || !IsHexDigit(s[1]) then None
    else
      var rest := HexDecode(s[2..]);
      if rest.Some? then Some([HexByte(s[0], s[1])] + rest.value) else None
  }

  function HexEncode(bytes: seq<uint8>): (s: string)
    ensures |s| == 2 * |bytes|
  {
    if bytes == [] then ""
    else [HexDigit(bytes[0] / 16), HexDigit(bytes[0] % 16)] + HexEncode(bytes[1..])
  }

  /** A string decodes exactly when it has an even number of characters, all
      of them hexadecimal digits. */
  lemma {:induction false} HexDecodeDefined(s: string)
    ensures HexDecode(s).Some? <==> |s| % 2 == 0 && forall i :: 0 <= i < |s| ==> IsHexDigit(s[i])
    decreases |s|
  {
    if |s| >= 2 {
      HexDecodeDefined(s[2..]);
      assert forall i :: 2 <= i < |s| ==> s[i] == s[2..][i - 2];
    }
  }

  /** Byte k of a decoded string is the value of digits 2k and 2k+1. */
  lemma {:induction false} HexDecodeAt(s: string, k: nat)
    requires HexDecode(s).Some? && k < |HexDecode(s).value|
    ensures HexDigitValue(s[2 * k]).Some? && HexDigitValue(s[2 * k + 1]).Some?
    ensures HexDecode(s).value[k] == 16 * HexDigitValue(s[2 * k]).value + HexDigitValue(s[2 * k + 1]).value
    decreases |s|
  {
    if k > 0 {
      HexDecodeAt(s[2..], k - 1);
    }
  }

  /** Encoding bytes as hexadecimal and decoding the text gives the bytes back. */
  lemma {:induction false} HexRoundTrip(bytes: seq<uint8>)
    ensures HexDecode(HexEncode(bytes)) == Some(bytes)
  {
    if bytes != [] {
      var s := HexEncode(bytes);
      HexRoundTrip(bytes[1..]);
      assert s[2..] == HexEncode(bytes[1..]);
      assert [bytes[0]] + bytes[1..] == bytes;
    }
  }

  /** One step of decoding: the first two digits give the first byte. */
  lemma HexDecodeStep(s: string)
    requires |s| >= 2
    ensures HexDecode(s).Some? <==> IsHexDigit(s[0]) && IsHexDigit(s[1]) && HexDecode(s[2..]).Some?
    ensures HexDecode(s).Some? ==>
      HexDecode(s) == Some([HexByte(s[0], s[1])] + HexDecode(s[2..]).value)
  {
  }

  /** Decoding distributes over concatenation at a byte boundary. */
  lemma {:induction false} HexDecodeAppend(a: string, b: string)
    requires |a| % 2 == 0 && HexDecode(a).Some? && HexDecode(b).Some?
    ensures HexDecode(a + b) == Some(HexDecode(a).value + HexDecode(b).value)
    decreases |a|
  {
    if a == [] {
      assert a + b == b;
      assert HexDecode(a).value + HexDecode(b).value == HexDecode(b).value;
    } else {
      var ab, tail := a + b, a[2..];
      assert ab[0] == a[0] && ab[1] == a[1] && ab[2..] == tail + b;
      HexDecodeStep(a);
      HexDecodeAppend(tail, b);
      HexDecodeStep(ab);
      var x, ra, rb := HexByte(a[0], a[1]), HexDecode(tail).value, HexDecode(b).value;
      assert [x] + (ra + rb) == ([x] + ra) + rb;
    }
  }

  // ------------------------------------------- The default link key decoded

  /** The 16 bytes of the ASCII text "ZigBeeAlliance09". */
  const ZigBeeAlliance09: seq<uint8> :=
    [0x5A, 0x69, 0x67, 0x42, 0x65, 0x65, 0x41, 0x6C, 0x6C, 0x69, 0x61, 0x6E, 0x63, 0x65, 0x30, 0x39]

  lemma ZigBeeAlliance09IsAscii()
    ensures |ZigBeeAlliance09| == |"ZigBeeAlliance09"| == 16
    ensures forall i :: 0 <= i < 16 ==> ZigBeeAlliance09[i] == "ZigBeeAlliance09"[i] as int
  {
  }

  // The key is decoded a quarter (four bytes) at a time: each quarter in a
  // lemma of its own, so that the solver evaluates one short literal at once.

  lemma DecodeKeyQuarter1()
    ensures HexDecode("5A696742") == Some([0x5A, 0x69, 0x67, 0x42])
  {
    assert HexEncode([0x5A, 0x69, 0x67, 0x42]) == "5A696742";
    HexRoundTrip([0x5A, 0x69, 0x67, 0x42]);
  }

  lemma DecodeKeyQuarter2()
    ensures HexDecode("6565416C") == Some([0x65, 0x65, 0x41, 0x6C])
  {
    assert HexEncode([0x65, 0x65, 0x41, 0x6C]) == "6565416C";
    HexRoundTrip([0x65, 0x65, 0x41, 0x6C]);
  }

  lemma DecodeKeyQuarter3()
    ensures HexDecode("6C69616E") == Some([0x6C, 0x69, 0x61, 0x6E])
  {
    assert HexEncode([0x6C, 0x69, 0x61, 0x6E]) == "6C69616E";
    HexRoundTrip([0x6C, 0x69, 0x61, 0x6E]);
  }

  lemma DecodeKeyQuarter4()
    ensures HexDecode("63653039") == Some([0x63, 0x65, 0x30, 0x39])
  {
    assert HexEncode([0x63, 0x65, 0x30, 0x39]) == "63653039";
    HexRoundTrip([0x63, 0x65, 0x30, 0x39]);
  }

  lemma HexDecodeQuarters(s1: string, s2: string, s3: string, s4: string,
                          b1: seq<uint8>, b2: seq<uint8>, b3: seq<uint8>, b4: seq<uint8>)
    requires |s1| % 2 == 0 && |s2| % 2 == 0 && |s3| % 2 == 0
    requires HexDecode(s1) == Some(b1) && HexDecode(s2) == Some(b2)
    requires HexDecode(s3) == Some(b3) && HexDecode(s4) == Some(b4)
    ensures HexDecode(s1 + (s2 + (s3 + s4))) == Some(b1 + (b2 + (b3 + b4)))
  {
    HexDecodeAppend(s3, s4);
    HexDecodeAppend(s2, s3 + s4);
    HexDecodeAppend(s1, s2 + (s3 + s4));
  }

  lemma KeyQuarters()
    ensures "5A696742" + ("6565416C" + ("6C69616E" + "63653039")) == DefaultGlobalTrustCenterLinkKey
    ensures [0x5A, 0x69, 0x67, 0x42] + ([0x65, 0x65, 0x41, 0x6C] + ([0x6C, 0x69, 0x61, 0x6E] + [0x63, 0x65, 0x30, 0x39]))
         == ZigBeeAlliance09
  {
  }

  /** The default global Trust Center link key is 32 hexadecimal digits that
      decode to the 16 ASCII bytes of "ZigBeeAlliance09". */
  lemma DefaultLinkKeyIsZigBeeAlliance09()
    ensures |DefaultGlobalTrustCenterLinkKey| == 32
    ensures HexDecode(DefaultGlobalTrustCenterLinkKey) == Some(ZigBeeAlliance09)
  {
    DecodeKeyQuarter1();
    DecodeKeyQuarter2();
    DecodeKeyQuarter3();
    DecodeKeyQuarter4();
    KeyQuarters();
    HexDecodeQuarters("5A696742", "6565416C", "6C69616E", "63653039",
      [0x5A, 0x69, 0x67, 0x42], [0x65, 0x65, 0x41, 0x6C], [0x6C, 0x69, 0x61, 0x6E], [0x63, 0x65, 0x30, 0x39]);
  }
}
