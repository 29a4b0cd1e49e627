/** The MAC-address formatter of src/utils/system_info.py: the node number is
    rendered as the 32-digit hex string of a UUID, the last 12 digits are kept,
    and they are written as six colon-separated pairs. */
module SystemInfo {
  import opened Wrappers
  import Strings

  const HexAlphabet: string := "0123456789abcdef"

  /** `2^128`: `uuid.UUID(int=...)` rejects anything from here on. */
  const UuidLimit: nat := 0x1_0000_0000_0000_0000_0000_0000_0000_0000

  /** `2^48`: the range of a hardware address. */
  const NodeLimit: nat := 0x1_0000_0000_0000

  /** The value of a lower-case hex digit. */
  function DigitValue(c: char): (v: nat)
    ensures c in HexAlphabet ==> v < 16 && HexAlphabet[v] == c
  {
    if '0' <= c <= '9' then (c - '0') as nat
    else if 'a' <= c <= 'f' then (c - 'a') as nat + 10
    else 0
  }

  /** The last `w` hex digits of `n`, most significant first, zero-padded:
      `'%0{w}x' % n` cut to its last `w` characters. */
  function Hex(n: nat, w: nat): (s: string)
    ensures |s| == w
    ensures forall i :: 0 <= i < w ==> s[i] in HexAlphabet
    decreases w
  {
    if w == 0 then "" else Hex(n / 16, w - 1) + [HexAlphabet[n % 16]]
  }

  /** `16^w`. */
  function Pow16(w: nat): (p: nat)
    ensures p > 0
  {
    if w == 0 then 1 else 16 * Pow16(w - 1)
  }

  /** Reading a string of hex digits as a number. */
  function ParseHex(s: string): nat
    decreases |s|
  {
    if |s| == 0 then 0 else ParseHex(s[..|s| - 1]) * 16 + DigitValue(s[|s| - 1])
  }

  /** The last `k` of `w` digits are the `k`-digit rendering. */
  lemma {:induction false} HexSuffix(n: nat, w: nat, k: nat)
    requires k <= w
    ensures Hex(n, w)[w - k..] == Hex(n, k)
    decreases w
  {
    if k == 0 {
    } else if k == w {
    } else {
      HexSuffix(n / 16, w - 1, k - 1);
      var s := Hex(n, w);
      assert s == Hex(n / 16, w - 1) + [HexAlphabet[n % 16]];
      assert s[w - k..] == Hex(n / 16, w - 1)[w - k..] + [HexAlphabet[n % 16]];
    }
  }

  /** Euclidean division is unique. */
  lemma DivModUnique(n: int, m: int, a: int, rem: int)
    requires m > 0 && 0 <= rem < m && n == a * m + rem
    ensures n % m == rem
  {
    var q := n / m;
    var d := a - q;
    assert d * m == n % m - rem by {
      assert n == q * m + n % m;
      assert a * m - q * m == d * m;
    }
  }

  /** Peeling the last hex digit off a remainder. */
  lemma ModPeel(n: nat, p: nat)
    requires p > 0
    ensures (n / 16 % p) * 16 + n % 16 == n % (16 * p)
  {
    var q := n / 16;
    var b := q % p;
    var a := q / p;
    assert q == a * p + b;
    assert n == 16 * q + n % 16;
    assert n == a * (16 * p) + (b * 16 + n % 16);
    assert b * 16 + n % 16 < 16 * p by {
      assert b <= p - 1;
      assert b * 16 <= (p - 1) * 16;
    }
    DivModUnique(n, 16 * p, a, b * 16 + n % 16);
  }

  /** Reading the `w`-digit rendering back gives `n` modulo `16^w`. */
  lemma {:induction false} HexRoundTrip(n: nat, w: nat)
    ensures ParseHex(Hex(n, w)) == n % Pow16(w)
    decreases w
  {
    if w > 0 {
      var s := Hex(n, w);
      assert s[..w - 1] == Hex(n / 16, w - 1);
      assert s[w - 1] == HexAlphabet[n % 16];
      LastDigit(n);
      HexRoundTrip(n / 16, w - 1);
      ModPeel(n, Pow16(w - 1));
    }
  }

  /** The digit written for `n % 16` reads back as `n % 16`. */
  lemma LastDigit(n: nat)
    ensures DigitValue(HexAlphabet[n % 16]) == n % 16
  {
    var d := n % 16;
    assert HexAlphabet[d] in HexAlphabet;
  }

  /** The six two-digit groups of a 12-digit string. */
  function Pairs(digits: string): (groups: seq<string>)
    requires |digits| == 12
    ensures |groups| == 6
    ensures forall i :: 0 <= i < 6 ==> groups[i] == digits[2 * i..2 * i + 2]
  {
    seq(6, i requires 0 <= i < 6 => digits[2 * i..2 * i + 2])
  }

  /** `get_mac_address()` for the node number `uuid.getnode()` returned;
      `None` stands for the `ValueError` of a node outside 128 bits. */
  function MacAddress(node: nat): (mac: Option<string>)
    ensures mac.Some? <==> node < UuidLimit
  {
    if node >= UuidLimit then None
    else Some(Strings.Join(Pairs(Hex(node, 32)[20..]), ':'))
  }

  /** Joining `k` two-character groups with one separator between each
      gives `3k - 1` characters. */
  lemma {:induction false} JoinPairsLength(groups: seq<string>, sep: char)
    requires |groups| >= 1
    requires forall i :: 0 <= i < |groups| ==> |groups[i]| == 2
    ensures |Strings.Join(groups, sep)| == 3 * |groups| - 1
    decreases |groups|
  {
    if |groups| > 1 {
      JoinPairsLength(groups[1..], sep);
    }
  }

  /** A MAC address is 17 characters, six groups of two lower-case hex
      digits with a colon between neighbours; the groups are the last 12
      digits of the node in order, so reading them back gives the node's
      low 48 bits, and a hardware address (below 2^48) exactly. */
  lemma MacAddressShape(node: nat)
    requires node < UuidLimit
    ensures var mac := MacAddress(node).value;
            && |mac| == 17
            && Strings.Split(mac, ':') == Pairs(Hex(node, 12))
            && Concat(Strings.Split(mac, ':')) == Hex(node, 32)[20..]
            && ParseMac(mac) == node % NodeLimit
            && (node < NodeLimit ==> ParseMac(mac) == node)
  {
    var mac := MacAddress(node).value;
    var digits := Hex(node, 12);
    var groups := Pairs(digits);
    MacGroups(node);
    ConcatPairsFrom(digits, 0);
    assert groups[0..] == groups;
    HexSuffix(node, 32, 12);
    assert ParseMac(mac) == ParseHex(digits);
    HexRoundTrip(node, 12);
    Pow16Twelve();
    assert ParseMac(mac) == node % NodeLimit;
    if node < NodeLimit {
      DivModUnique(node, NodeLimit, 0, node);
    }
  }

  /** The colon-separated groups of a MAC address are the pairs of the node's last 12 digits. */
  lemma MacGroups(node: nat)
    requires node < UuidLimit
    ensures |MacAddress(node).value| == 17
    ensures Strings.Split(MacAddress(node).value, ':') == Pairs(Hex(node, 12))
  {
    HexSuffix(node, 32, 12);
    var digits := Hex(node, 12);
    assert MacAddress(node).value == Strings.Join(Pairs(digits), ':');
    var groups := Pairs(digits);
    GroupsAreHexPairs(digits);
    JoinPairsLength(groups, ':');
    Strings.SplitJoin(groups, ':');
  }

  /** The groups are pairs of hex digits, so none holds a colon. */
  lemma GroupsAreHexPairs(digits: string)
    requires |digits| == 12
    requires forall i :: 0 <= i < 12 ==> digits[i] in HexAlphabet
    ensures forall i :: 0 <= i < 6 ==> |Pairs(digits)[i]| == 2 && ':' !in Pairs(digits)[i]
  {
    forall i | 0 <= i < 6 ensures ':' !in Pairs(digits)[i] {
      var g := Pairs(digits)[i];
      assert g[0] == digits[2 * i] && g[1] == digits[2 * i + 1];
      assert ':' !in HexAlphabet;
    }
  }

  /** In the joined pairs the separator sits exactly at every third position. */
  lemma {:induction false} JoinPairsSeparators(groups: seq<string>, sep: char, i: nat)
    requires |groups| >= 1
    requires forall j :: 0 <= j < |groups| ==> |groups[j]| == 2 && sep !in groups[j]
    requires i < 3 * |groups| - 1
    ensures |Strings.Join(groups, sep)| == 3 * |groups| - 1
    ensures Strings.Join(groups, sep)[i] == sep <==> i % 3 == 2
    decreases |groups|
  {
    JoinPairsLength(groups, sep);
    var joined := Strings.Join(groups, sep);
    if |groups| == 1 {
      assert joined == groups[0];
      assert joined[i] in groups[0];
    } else {
      var rest := Strings.Join(groups[1..], sep);
      assert joined == groups[0] + [sep] + rest;
      if i < 2 {
        assert joined[i] == groups[0][i];
      } else if i > 2 {
        JoinPairsSeparators(groups[1..], sep, i - 3);
        assert joined[i] == rest[i - 3];
      }
    }
  }

  /** The colons of a MAC address stand at positions 2, 5, 8, 11 and 14 and nowhere else. */
  lemma MacColons(node: nat, i: nat)
    requires node < UuidLimit && i < 17
    ensures var mac := MacAddress(node).value;
            |mac| == 17 && (mac[i] == ':' <==> i in {2, 5, 8, 11, 14})
  {
    MacGroups(node);
    ColonsOfPairs(Hex(node, 12), MacAddress(node).value, i);
  }

  /** A string whose colon-separated fields are the pairs of twelve hex digits
      has its colons at every third position. */
  lemma ColonsOfPairs(digits: string, mac: string, i: nat)
    requires |digits| == 12 && forall j :: 0 <= j < 12 ==> digits[j] in HexAlphabet
    requires Strings.Split(mac, ':') == Pairs(digits) && i < 17
    ensures |mac| == 17 && (mac[i] == ':' <==> i in {2, 5, 8, 11, 14})
  {
    var groups := Pairs(digits);
    GroupsAreHexPairs(digits);
    assert Strings.Join(groups, ':') == mac;
    JoinPairsSeparators(groups, ':', i);
    assert |mac| == 17;
    assert mac[i] == ':' <==> i % 3 == 2;
    EveryThird(i);
  }

  lemma EveryThird(i: nat)
    requires i < 17
    ensures i % 3 == 2 <==> i in {2, 5, 8, 11, 14}
  {
  }

  /** The groups glued back together. */
  function Concat(groups: seq<string>): string
  {
    if |groups| == 0 then "" else groups[0] + Concat(groups[1..])
  }

  lemma {:induction false} ConcatPairsFrom(digits: string, j: nat)
    requires |digits| == 12 && j <= 6
    ensures Concat(Pairs(digits)[j..]) == digits[2 * j..]
    decreases 6 - j
  {
    var g := Pairs(digits);
    if j == 6 {
      assert g[j..] == [];
    } else {
      ConcatPairsFrom(digits, j + 1);
      assert g[j..][0] == g[j];
      assert g[j..][1..] == g[j + 1..];
      assert digits[2 * j..] == digits[2 * j..2 * j + 2] + digits[2 * j + 2..];
    }
  }

  lemma Pow16Twelve()
    ensures Pow16(12) == NodeLimit
  {
    assert Pow16(2) == 0x100;
    assert Pow16(4) == 0x1_0000;
    assert Pow16(6) == 0x100_0000;
    assert Pow16(8) == 0x1_0000_0000;
    assert Pow16(10) == 0x100_0000_0000;
  }

  /** The inverse reading of a MAC address: strip the colons, read the hex. */
  function ParseMac(mac: string): nat
  {
    ParseHex(Concat(Strings.Split(mac, ':')))
  }
}
