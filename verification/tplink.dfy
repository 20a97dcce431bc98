// charger/tplink.go: the autokey cipher of the Smart Home Protocol inside execCmd.
module TPLink {

  type Bytes = seq<bv8>

  const INITIAL_KEY: bv8 := 171
  const HEADER := 4
  const BUFFER := 8192

  // The key for the byte after these encrypted ones
  function Key(sent: Bytes): bv8 {
    if sent == [] then INITIAL_KEY else sent[|sent| - 1]
  }

  // Each byte is encrypted with the previous encrypted byte.
  function Encode(cmd: Bytes): (r: Bytes)
    ensures |r| == |cmd|
  {
    if cmd == [] then []
    else
      var before := Encode(cmd[..|cmd| - 1]);
      before + [Key(before) ^ cmd[|cmd| - 1]]
  }

  // Each byte is decrypted with the previous byte received.
  function Decode(resp: Bytes): (r: Bytes)
    ensures |r| == |resp|
  {
    if resp == [] then []
    else
      var before := resp[..|resp| - 1];
      Decode(before) + [Key(before) ^ resp[|resp| - 1]]
  }

  // The first byte is encrypted with 171, every other one with the encrypted byte before it.
  lemma {:induction false} EncodeAt(cmd: Bytes, i: nat)
    requires i < |cmd|
    ensures Encode(cmd)[i] == (if i == 0 then 171 else Encode(cmd)[i - 1]) ^ cmd[i]
  {
    if i < |cmd| - 1 {
      EncodeAt(cmd[..|cmd| - 1], i);
    }
  }

  lemma {:induction false} DecodeAt(resp: Bytes, i: nat)
    requires i < |resp|
    ensures Decode(resp)[i] == (if i == 0 then 171 else resp[i - 1]) ^ resp[i]
  {
    if i < |resp| - 1 {
      DecodeAt(resp[..|resp| - 1], i);
    }
  }

  lemma XorTwice(a: bv8, b: bv8)
    ensures a ^ (a ^ b) == b
  {
  }

  lemma DecodeEncode(cmd: Bytes)
    ensures Decode(Encode(cmd)) == cmd
  {
    forall i | 0 <= i < |cmd| ensures Decode(Encode(cmd))[i] == cmd[i] {
      EncodeAt(cmd, i);
      DecodeAt(Encode(cmd), i);
      XorTwice(if i == 0 then 171 else Encode(cmd)[i - 1], cmd[i]);
    }
  }

  lemma EncodeDecode(resp: Bytes)
    ensures Encode(Decode(resp)) == resp
  {
    var cmd := Decode(resp);
    EncodesBack(resp, |resp|);
    assert Encode(cmd)[..|resp|] == Encode(cmd);
    assert resp[..|resp|] == resp;
  }

  // As far as the encrypted bytes agree, so do the keys, and hence the next bytes.
  lemma {:induction false} EncodesBack(resp: Bytes, n: nat)
    requires n <= |resp|
    ensures Encode(Decode(resp))[..n] == resp[..n]
  {
    if n > 0 {
      var i, cmd := n - 1, Decode(resp);
      EncodesBack(resp, i);
      EncodeAt(cmd, i);
      DecodeAt(resp, i);
      if i > 0 { assert Encode(cmd)[..i][i - 1] == resp[..i][i - 1]; }
      XorTwice(if i == 0 then 171 else resp[i - 1], resp[i]);
    }
  }

  // The four bytes of the length, most significant first, modulo 2^32
  function Header(n: nat): (r: seq<nat>)
    ensures |r| == HEADER && forall i :: 0 <= i < HEADER ==> r[i] < 256
  {
    [n / 0x100_0000 % 256, n / 0x1_0000 % 256, n / 0x100 % 256, n % 256]
  }

  lemma HeaderIsLength(n: nat)
    ensures var r := Header(n);
      r[0] * 0x100_0000 + r[1] * 0x1_0000 + r[2] * 0x100 + r[3] == n % 0x1_0000_0000
  {
    var n1, n2, n3 := n / 256, n / 256 / 256, n / 256 / 256 / 256;
    assert n == 256 * n1 + n % 256;
    assert n1 == 256 * n2 + n1 % 256;
    assert n2 == 256 * n3 + n2 % 256;
    assert n3 == 256 * (n3 / 256) + n3 % 256;
    assert n / 0x1_0000 == n2 && n / 0x100_0000 == n3;
    Remainder(n, n3 / 256, n3 % 256 * 0x100_0000 + n2 % 256 * 0x1_0000 + n1 % 256 * 0x100 + n % 256);
  }

  lemma Remainder(n: nat, q: nat, r: nat)
    requires n == 0x1_0000_0000 * q + r && r < 0x1_0000_0000
    ensures n % 0x1_0000_0000 == r
  {
  }

  method Encrypt(cmd: Bytes) returns (body: Bytes)
    ensures body == Encode(cmd)
  {
    var key := INITIAL_KEY;
    body := [];
    for i := 0 to |cmd|
      invariant body == Encode(cmd[..i]) && key == Key(body)
    {
      assert cmd[..i + 1][..i] == cmd[..i];
      key := key ^ cmd[i];
      body := body + [key];
    }
    assert cmd[..|cmd|] == cmd;
  }

  // What is received of a response: no more than the buffer, and the header goes unread.
  function Received(resp: Bytes): Bytes {
    if |resp| <= HEADER then [] else if |resp| <= BUFFER then resp[HEADER..] else resp[HEADER..BUFFER]
  }

  method Decrypt(resp: Bytes) returns (cmd: Bytes)
    ensures cmd == Decode(Received(resp))
  {
    var len := if |resp| <= BUFFER then |resp| else BUFFER;
    var body := Received(resp);
    var key := INITIAL_KEY;
    cmd := [];
    var i := HEADER;
    while i < len
      invariant HEADER <= i && (i <= len || |body| == 0)
      invariant i - HEADER <= |body| || cmd == []
      invariant i - HEADER <= |body| ==> cmd == Decode(body[..i - HEADER]) && key == Key(body[..i - HEADER])
    {
      var k := i - HEADER;
      assert body[..k + 1][..k] == body[..k] && body[k] == resp[i];
      cmd := cmd + [key ^ resp[i]];
      key := resp[i];
      i := i + 1;
    }
    assert body[..|body|] == body;
  }

  // Decrypting an encrypted command gives back as much of it as fits the receive buffer, so all of
  // it exactly if it fits.
  lemma RoundTrip(header: Bytes, cmd: Bytes)
    requires |header| == 4
    ensures var back := Decode(Received(header + Encode(cmd)));
      && back == (if |cmd| <= 8192 - 4 then cmd else cmd[..8192 - 4])
      && (back == cmd <==> |cmd| <= 8192 - 4)
  {
    var n := if |cmd| <= 8192 - 4 then |cmd| else 8192 - 4;
    ComesBack(header, cmd, n);
    assert cmd[..|cmd|] == cmd;
  }

  lemma ComesBack(header: Bytes, cmd: Bytes, n: nat)
    requires |header| == 4 && n == if |cmd| <= 8192 - 4 then |cmd| else 8192 - 4
    ensures Decode(Received(header + Encode(cmd))) == cmd[..n]
  {
    ReceivedIs(header, Encode(cmd), n);
    EncodePrefix(cmd, n);
    DecodeEncode(cmd[..n]);
  }

  lemma ReceivedIs(header: Bytes, body: Bytes, n: nat)
    requires |header| == 4 && n == if |body| <= 8192 - 4 then |body| else 8192 - 4
    ensures Received(header + body) == body[..n]
  {
    assert (header + body)[4..4 + n] == body[..n];
  }

  lemma {:induction false} EncodePrefix(cmd: Bytes, n: nat)
    requires n <= |cmd|
    ensures Encode(cmd)[..n] == Encode(cmd[..n])
  {
    if n < |cmd| {
      var before := cmd[..|cmd| - 1];
      EncodePrefix(before, n);
      assert before[..n] == cmd[..n];
    } else {
      assert cmd[..n] == cmd;
    }
  }
}
