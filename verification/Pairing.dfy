/** The pairing payload that the server prints as a QR code and the phone scans (crates/transport/src/pairing.rs). */
module Pairing {
  import opened Numbers
  import opened Text
  import opened Texts
  import opened Fingerprints

  const URI_PREFIX := "soundwave:/" + "/pair/v1?"
  const MAX_PAYLOAD_LENGTH := 512

  datatype Address = Address(a: u8, b: u8, c: u8, d: u8)

  // ----- the server's side -----

  function AddressText(host: Address): string {
    Join([Decimal(host.a), Decimal(host.b), Decimal(host.c), Decimal(host.d)], '.')
  }

  function Payload(host: string, port: string, hex: string): string {
    URI_PREFIX + Join(["host=" + host, "port=" + port, "fp=" + hex], '&')
  }

  /** The canonical payload. */
  function Uri(host: Address, port: u16, fingerprint: seq<u8>): string {
    Payload(AddressText(host), Decimal(port), HexText(fingerprint))
  }

  method EncodePairingUri(host: Address, port: u16, fingerprint: seq<u8>) returns (uri: string)
    ensures uri == Uri(host, port, fingerprint)
  {
    var hex := "";
    assert fingerprint[..|fingerprint|] == fingerprint;
    for j := 0 to |fingerprint|
      invariant hex == HexText(fingerprint[..j])
    {
      hex := hex + HexByte(fingerprint[j]);
      assert fingerprint[..j + 1][..j] == fingerprint[..j];
    }
    uri := URI_PREFIX + "host=" + AddressText(host) + "&port=" + Decimal(port) + "&fp=" + hex;
    PayloadText(AddressText(host), Decimal(port), hex);
  }

  // ----- the phone's side -----

  datatype Details = Details(host: string, port: nat, fingerprint: string)

  predicate Printable(c: char) {
    '!' <= c <= '~'
  }

  predicate StartsWith(s: string, prefix: string) {
    prefix <= s
  }

  function Without(s: string, prefix: string): string {
    if StartsWith(s, prefix) then s[|prefix|..] else s
  }

  /** A decimal octet without leading zeros, as dec-octet in section 3.2.2 of RFC 3986. */
  function OctetValue(octet: string): Option<u8> {
    if octet == "" || |octet| > 3 || (|octet| > 1 && octet[0] == '0') || exists c <- octet :: !IsDigit(c) then None
    else
      var value := ToInt(octet);
      if value.Some? && value.value <= 255 then Some(value.value) else None
  }

  /** Neither this network, loopback, multicast and above, nor link-local. */
  predicate Allowed(host: Address) {
    host.a != 0 && host.a != 127 && host.a < 224 && !(host.a == 169 && host.b == 254)
  }

  function HostAddress(host: string): Option<Address> {
    var octets := Split(host, '.');
    if |octets| != 4 then None else
    var a, b := OctetValue(octets[0]), OctetValue(octets[1]);
    var c, d := OctetValue(octets[2]), OctetValue(octets[3]);
    if a.None? || b.None? || c.None? || d.None? then None
    else Some(Address(a.value, b.value, c.value, d.value))
  }

  predicate IsValidHost(host: string) {
    HostAddress(host).Some? && Allowed(HostAddress(host).value)
  }

  predicate IsCanonicalPort(port: string) {
    port != "" && (forall c <- port :: IsDigit(c)) && (|port| == 1 || port[0] != '0')
  }

  predicate IsValidCompactFingerprint(fingerprint: string) {
    |fingerprint| == HEX_LENGTH && forall c <- fingerprint :: IsHex(c)
  }

  function Parse(payload: string): Option<Details> {
    if |payload| > MAX_PAYLOAD_LENGTH || exists c <- payload :: !Printable(c) then None
    else if !StartsWith(payload, URI_PREFIX) then None
    else
      var query := Without(payload, URI_PREFIX);
      if Count(query, '&') != 2 then None else
      var parameters := Split(query, '&');
      if |parameters| != 3 || !StartsWith(parameters[0], "host=") || !StartsWith(parameters[1], "port=")
        || !StartsWith(parameters[2], "fp=") then None
      else
        ParseFields(Without(parameters[0], "host="), Without(parameters[1], "port="), Without(parameters[2], "fp="))
  }

  function ParseFields(host: string, portText: string, compactFingerprint: string): Option<Details> {
    var port := ToInt(portText);
    if !IsValidHost(host) || !IsCanonicalPort(portText) || port.None? || !(1 <= port.value <= 65535)
      || !IsValidCompactFingerprint(compactFingerprint)
    then None
    else Some(Details(host, port.value, Colons(UpperText(compactFingerprint))))
  }

  // ----- hosts -----

  lemma OctetOfDecimal(n: u8)
    ensures OctetValue(Decimal(n)) == Some(n)
  {
    DecimalIsCanonical(n);
    DecimalLength(n, 3);
    assert Power10(3) == 1000;
  }

  lemma DecimalOfOctet(octet: string)
    requires OctetValue(octet).Some?
    ensures Decimal(OctetValue(octet).value) == octet
  {
    CanonicalIsDecimal(octet);
  }

  lemma HostOfAddress(host: Address)
    ensures HostAddress(AddressText(host)) == Some(host)
  {
    var octets := [Decimal(host.a), Decimal(host.b), Decimal(host.c), Decimal(host.d)];
    SplitInvertsJoin(octets, '.');
    OctetOfDecimal(host.a);
    OctetOfDecimal(host.b);
    OctetOfDecimal(host.c);
    OctetOfDecimal(host.d);
  }

  lemma AddressOfHost(host: string)
    requires HostAddress(host).Some?
    ensures AddressText(HostAddress(host).value) == host
  {
    var octets := Split(host, '.');
    var address := HostAddress(host).value;
    DecimalOfOctet(octets[0]);
    DecimalOfOctet(octets[1]);
    DecimalOfOctet(octets[2]);
    DecimalOfOctet(octets[3]);
    assert octets == [Decimal(address.a), Decimal(address.b), Decimal(address.c), Decimal(address.d)];
    JoinInvertsSplit(host, '.');
  }

  /** Digits and dots only, and at most 15 of them. */
  lemma AddressTextIsPlain(host: Address)
    ensures forall c <- AddressText(host) :: IsDigit(c) || c == '.'
    ensures |AddressText(host)| <= 15
  {
    JoinFour(Decimal(host.a), Decimal(host.b), Decimal(host.c), Decimal(host.d), '.');
    assert Power10(3) == 1000;
    DecimalLength(host.a, 3);
    DecimalLength(host.b, 3);
    DecimalLength(host.c, 3);
    DecimalLength(host.d, 3);
  }

  // ----- fields -----

  lemma FieldsOf(host: Address, port: u16, fingerprint: seq<u8>)
    requires |fingerprint| == FINGERPRINT_BYTES
    ensures ParseFields(AddressText(host), Decimal(port), HexText(fingerprint)) ==
      if Allowed(host) && port != 0
      then Some(Details(AddressText(host), port, FormatFingerprint(fingerprint))) else None
  {
    HostOfAddress(host);
    DecimalIsCanonical(port);
    HexTextIsHex(fingerprint);
    FormatIsColons(fingerprint);
  }

  /** Accepted fields are those of an address, a port and a fingerprint. */
  lemma FieldsAreOf(host: string, portText: string, hex: string) returns (address: Address, port: u16, bytes: seq<u8>)
    requires ParseFields(host, portText, hex).Some?
    ensures host == AddressText(address) && portText == Decimal(port) && UpperText(hex) == HexText(bytes)
    ensures Allowed(address) && port != 0 && |bytes| == FINGERPRINT_BYTES
    ensures ParseFields(host, portText, hex).value == Details(host, port, FormatFingerprint(bytes))
  {
    address := HostAddress(host).value;
    AddressOfHost(host);
    CanonicalIsDecimal(portText);
    port := ToInt(portText).value;
    HexTextOfBytes(hex);
    bytes := BytesOf(hex).value;
    FormatIsColons(bytes);
  }

  // ----- the payload -----

  predicate NoAmpersand(text: string) { '&' !in text }

  lemma PayloadSplits(host: string, port: string, hex: string)
    requires NoAmpersand(host) && NoAmpersand(port) && NoAmpersand(hex)
    ensures var query := Without(Payload(host, port, hex), URI_PREFIX);
            && StartsWith(Payload(host, port, hex), URI_PREFIX)
            && Count(query, '&') == 2
            && Split(query, '&') == ["host=" + host, "port=" + port, "fp=" + hex]
  {
    var parts := ["host=" + host, "port=" + port, "fp=" + hex];
    SplitInvertsJoin(parts, '&');
    SplitCounts(Join(parts, '&'), '&');
    assert Payload(host, port, hex)[|URI_PREFIX|..] == Join(parts, '&');
  }

  lemma PayloadText(host: string, port: string, hex: string)
    ensures Payload(host, port, hex) == URI_PREFIX + "host=" + host + "&port=" + port + "&fp=" + hex
  {
    JoinThree("host=" + host, "port=" + port, "fp=" + hex, '&');
    assert ['&'] + "port=" == "&port=" && ['&'] + "fp=" == "&fp=";
    LongSum(URI_PREFIX, "host=", host, ['&'], "port=", port, ['&'], "fp=", hex);
  }

  lemma LongSum(a: string, b: string, c: string, d: string, e: string, f: string, g: string, h: string, i: string)
    ensures a + ((b + c) + d + (e + f) + g + (h + i)) == a + b + c + (d + e) + f + (g + h) + i
  {
  }

  predicate AllPrintable(text: string) {
    forall c <- text :: Printable(c)
  }

  lemma PrintableParts(host: string, port: string, hex: string)
    requires AllPrintable(host) && AllPrintable(port) && AllPrintable(hex)
    ensures AllPrintable(Payload(host, port, hex))
    ensures |Payload(host, port, hex)| == |host| + |port| + |hex| + 35
  {
    PayloadText(host, port, hex);
    assert AllPrintable(URI_PREFIX + "host=") && AllPrintable("&port=") && AllPrintable("&fp=");
  }

  lemma UriIsPrintable(host: Address, port: u16, fingerprint: seq<u8>)
    requires |fingerprint| == FINGERPRINT_BYTES
    ensures |Uri(host, port, fingerprint)| <= MAX_PAYLOAD_LENGTH && AllPrintable(Uri(host, port, fingerprint))
  {
    AddressTextIsPlain(host);
    DecimalLength(port, 5);
    assert Power10(5) == 100000;
    HexTextIsHex(fingerprint);
    PrintableParts(AddressText(host), Decimal(port), HexText(fingerprint));
  }

  /** The phone reads a printed payload exactly if the host is one it allows and the port is
      not 0, and then it has the host, the port and, through the connection library, the
      very bytes of the fingerprint. */
  lemma ParseInvertsEncode(host: Address, port: u16, fingerprint: seq<u8>)
    requires |fingerprint| == FINGERPRINT_BYTES
    ensures Parse(Uri(host, port, fingerprint)) ==
      if Allowed(host) && port != 0
      then Some(Details(AddressText(host), port, FormatFingerprint(fingerprint))) else None
    ensures Parsed(FormatFingerprint(fingerprint)) == Some(fingerprint)
    ensures Parse(Uri(host, port, fingerprint)).Some? <==>
      port != 0 && 1 <= host.a < 224 && host.a != 127 && (host.a == 169 ==> host.b != 254)
  {
    AddressTextIsPlain(host);
    HexTextIsHex(fingerprint);
    UriIsPrintable(host, port, fingerprint);
    ParseOfPayload(AddressText(host), Decimal(port), HexText(fingerprint));
    FieldsOf(host, port, fingerprint);
    ParseInvertsFormat(fingerprint);
  }

  lemma ParseOfPayload(host: string, port: string, hex: string)
    requires NoAmpersand(host) && NoAmpersand(port) && NoAmpersand(hex)
    requires |Payload(host, port, hex)| <= MAX_PAYLOAD_LENGTH
    requires AllPrintable(Payload(host, port, hex))
    ensures Parse(Payload(host, port, hex)) == ParseFields(host, port, hex)
  {
    PayloadSplits(host, port, hex);
    PrefixOff("host=", host);
    PrefixOff("port=", port);
    PrefixOff("fp=", hex);
  }

  lemma PrefixOff(prefix: string, rest: string)
    ensures StartsWith(prefix + rest, prefix) && Without(prefix + rest, prefix) == rest
  {
  }

  lemma PrefixOn(s: string, prefix: string)
    requires StartsWith(s, prefix)
    ensures s == prefix + Without(s, prefix)
  {
  }

  /** An accepted payload is made of its three fields. */
  lemma ParsedIsPayload(payload: string) returns (host: string, port: string, hex: string)
    requires Parse(payload).Some?
    ensures payload == Payload(host, port, hex) && Parse(payload) == ParseFields(host, port, hex)
  {
    var query := Without(payload, URI_PREFIX);
    var parameters := Split(query, '&');
    host, port := Without(parameters[0], "host="), Without(parameters[1], "port=");
    hex := Without(parameters[2], "fp=");
    JoinInvertsSplit(query, '&');
    PrefixOn(parameters[0], "host=");
    PrefixOn(parameters[1], "port=");
    PrefixOn(parameters[2], "fp=");
    PrefixOn(payload, URI_PREFIX);
    assert parameters == [parameters[0], parameters[1], parameters[2]];
  }

  /** The payload with its fingerprint digits in upper case. */
  function Canonical(payload: string): string {
    if |payload| < HEX_LENGTH then payload else
    payload[..|payload| - HEX_LENGTH] + UpperText(payload[|payload| - HEX_LENGTH..])
  }

  /** Whatever the phone accepts, the server would print for the same host, port and
      fingerprint, but for the case of the fingerprint's digits. */
  lemma EncodeInvertsParse(payload: string) returns (host: Address, port: u16, fingerprint: seq<u8>)
    requires Parse(payload).Some?
    ensures |fingerprint| == FINGERPRINT_BYTES && Allowed(host) && port != 0
    ensures Parse(payload).value == Details(AddressText(host), port, FormatFingerprint(fingerprint))
    ensures Parsed(Parse(payload).value.fingerprint) == Some(fingerprint)
    ensures Uri(host, port, fingerprint) == Canonical(payload)
  {
    var hostText, portText, hex := ParsedIsPayload(payload);
    host, port, fingerprint := FieldsAreOf(hostText, portText, hex);
    ParseInvertsFormat(fingerprint);
    UpperEnd(hostText, portText, hex);
  }

  lemma UpperEnd(host: string, port: string, hex: string)
    requires |hex| == HEX_LENGTH
    ensures Payload(host, port, UpperText(hex)) == Canonical(Payload(host, port, hex))
  {
    PayloadText(host, port, hex);
    PayloadText(host, port, UpperText(hex));
    var front := URI_PREFIX + "host=" + host + "&port=" + port + "&fp=";
    assert Payload(host, port, hex) == front + hex;
    assert (front + hex)[..|front|] == front && (front + hex)[|front|..] == hex;
  }
}
