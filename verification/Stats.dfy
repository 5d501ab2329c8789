/** Per-port counters, and the rows of the management snapshots. */
module Stats {
  import opened Wire

  datatype PortStats = PortStats(
    rxFrames: nat, rxBytes: nat, txFrames: nat, txBytes: nat, flooded: nat, forwardDrop: nat, txDrop: nat)

  const ZERO := PortStats(0, 0, 0, 0, 0, 0, 0)

  /** A row of the table listing; the age is in nanoseconds. */
  datatype FDBEntry = FDBEntry(vid: uint16, mac: string, port: string, age: int)

  function Hex(n: byte): char
    requires n < 16
  {
    if n < 10 then ('0' as int + n) as char else ('a' as int + n - 10) as char
  }

  /** Two hexadecimal digits a byte, lower case, joined by colons. */
  function MacText(m: Bytes): string {
    if m == [] then ""
    else [Hex(m[0] / 16), Hex(m[0] % 16)] + if |m| == 1 then "" else ":" + MacText(m[1..])
  }

  lemma {:induction false} MacTextInjective(m: Bytes, n: Bytes)
    requires |m| == |n| && MacText(m) == MacText(n)
    ensures m == n
  {
    if m != [] {
      var s, t := MacText(m), MacText(n);
      assert s[0] == t[0] && s[1] == t[1];
      HexInjective(m[0] / 16, n[0] / 16);
      HexInjective(m[0] % 16, n[0] % 16);
      assert m[0] == n[0];
      if |m| > 1 {
        assert s[3..] == MacText(m[1..]) && t[3..] == MacText(n[1..]);
        MacTextInjective(m[1..], n[1..]);
      }
      assert m == [m[0]] + m[1..] && n == [n[0]] + n[1..];
    }
  }

  lemma HexInjective(a: byte, b: byte)
    requires a < 16 && b < 16 && Hex(a) == Hex(b)
    ensures a == b
  {
  }

  /** What a hexadecimal digit stands for. */
  function DigitValue(c: char): int {
    if '0' <= c <= '9' then c as int - '0' as int
    else if 'a' <= c <= 'f' then c as int - 'a' as int + 10
    else -1
  }

  /** Read back, each pair of digits is its byte, in order, with colons in between. */
  lemma {:induction false} MacTextReads(m: Bytes, i: nat)
    requires i < |m|
    ensures |MacText(m)| == 3 * |m| - 1
    ensures DigitValue(MacText(m)[3 * i]) == m[i] / 16 && DigitValue(MacText(m)[3 * i + 1]) == m[i] % 16
    ensures i < |m| - 1 ==> MacText(m)[3 * i + 2] == ':'
  {
    var text := MacText(m);
    if |m| > 1 {
      MacTextReads(m[1..], if i == 0 then 0 else i - 1);
      assert text[3..] == MacText(m[1..]);
    }
  }
}
