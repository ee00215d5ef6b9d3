/** Cluster keys (internal/history/key.go:15-29): the context name, a bar, and a hash of the server address. */
module ClusterKeys {
  type Byte = n: nat | n < 256

  const HEX: string := "0123456789abcdef"

  function HexDigit(n: nat): char
    requires n < 16
  {
    HEX[n]
  }

  function Hex(bytes: seq<Byte>): string {
    if bytes == [] then "" else [HexDigit(bytes[0] / 16), HexDigit(bytes[0] % 16)] + Hex(bytes[1..])
  }

  /** digest is the hash of the trimmed server address; the first six bytes are used. */
  function ClusterKey(contextName: string, digest: seq<Byte>): string {
    contextName + "|" + Hex(if |digest| <= 6 then digest else digest[..6])
  }

  function LastIndex(s: string, c: char): (i: int)
    ensures -1 <= i < |s|
  {
    if s == "" then -1
    else if s[|s| - 1] == c then |s| - 1
    else LastIndex(s[..|s| - 1], c)
  }

  function ContextFromKey(key: string): string {
    var i := LastIndex(key, '|');
    if i >= 0 then key[..i] else key
  }

  lemma HexDigitsAreDigits(n: nat)
    requires n < 16
    ensures HexDigit(n) != '|'
    ensures forall m: nat :: m < 16 && HexDigit(m) == HexDigit(n) ==> m == n
  {
  }

  lemma {:induction false} HexHasNoBar(bytes: seq<Byte>)
    ensures forall i :: 0 <= i < |Hex(bytes)| ==> Hex(bytes)[i] != '|'
    ensures |Hex(bytes)| == 2 * |bytes|
  {
    if bytes != [] {
      HexHasNoBar(bytes[1..]);
      HexDigitsAreDigits(bytes[0] / 16);
      HexDigitsAreDigits(bytes[0] % 16);
    }
  }

  lemma {:induction false} LastBar(a: string, b: string)
    requires forall i :: 0 <= i < |b| ==> b[i] != '|'
    ensures LastIndex(a + "|" + b, '|') == |a|
    decreases |b|
  {
    var s := a + "|" + b;
    if b == "" {
      assert s[|s| - 1] == '|';
    } else {
      assert s[|s| - 1] == b[|b| - 1];
      assert s[..|s| - 1] == a + "|" + b[..|b| - 1];
      LastBar(a, b[..|b| - 1]);
    }
  }

  /** The context name is recovered from the key, whatever characters it contains. */
  lemma ContextIsRecovered(contextName: string, digest: seq<Byte>)
    ensures ContextFromKey(ClusterKey(contextName, digest)) == contextName
  {
    var d := if |digest| <= 6 then digest else digest[..6];
    HexHasNoBar(d);
    LastBar(contextName, Hex(d));
  }

  lemma {:induction false} HexIsInjective(a: seq<Byte>, b: seq<Byte>)
    requires Hex(a) == Hex(b)
    ensures a == b
  {
    HexHasNoBar(a);
    HexHasNoBar(b);
    if a != [] {
      var ha, hb := Hex(a), Hex(b);
      assert ha[0] == HexDigit(a[0] / 16) && ha[1] == HexDigit(a[0] % 16) && ha[2..] == Hex(a[1..]);
      assert hb[0] == HexDigit(b[0] / 16) && hb[1] == HexDigit(b[0] % 16) && hb[2..] == Hex(b[1..]);
      HexDigitsAreDigits(a[0] / 16);
      HexDigitsAreDigits(a[0] % 16);
      HexIsInjective(a[1..], b[1..]);
    }
  }

  /** Two contexts, or one context pointed at servers whose hashes differ, never share a key. */
  lemma KeyIdentifiesCluster(c1: string, d1: seq<Byte>, c2: string, d2: seq<Byte>)
    requires |d1| >= 6 && |d2| >= 6 && ClusterKey(c1, d1) == ClusterKey(c2, d2)
    ensures c1 == c2 && d1[..6] == d2[..6]
  {
    ContextIsRecovered(c1, d1);
    ContextIsRecovered(c2, d2);
    var prefix := c1 + "|";
    assert ClusterKey(c1, d1)[|prefix|..] == Hex(if |d1| <= 6 then d1 else d1[..6]);
    assert ClusterKey(c2, d2)[|prefix|..] == Hex(if |d2| <= 6 then d2 else d2[..6]);
    HexIsInjective(if |d1| <= 6 then d1 else d1[..6], if |d2| <= 6 then d2 else d2[..6]);
  }
}
