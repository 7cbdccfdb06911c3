/** Words and their lower-case hexadecimal text. */
module Hex {

  type Word = bv32

  function HexDigit(n: Word): char {
    if n == 0 then '0' else if n == 1 then '1' else if n == 2 then '2' else if n == 3 then '3'
    else if n == 4 then '4' else if n == 5 then '5' else if n == 6 then '6' else if n == 7 then '7'
    else if n == 8 then '8' else if n == 9 then '9' else if n == 10 then 'a' else if n == 11 then 'b'
    else if n == 12 then 'c' else if n == 13 then 'd' else if n == 14 then 'e' else 'f'
  }

  function HexWord(x: Word): string {
    [HexDigit(x >> 28), HexDigit((x >> 24) & 15), HexDigit((x >> 20) & 15), HexDigit((x >> 16) & 15),
     HexDigit((x >> 12) & 15), HexDigit((x >> 8) & 15), HexDigit((x >> 4) & 15), HexDigit(x & 15)]
  }
}
