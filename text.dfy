/** Text helpers: the capitalisation used for class names. */
module Text {

  /** Upper-casing of one character, restricted to ASCII letters. */
  function ToUpper(c: char): (u: char)
    ensures 'a' <= c <= 'z' ==> u as int == c as int - 32
    ensures !('a' <= c <= 'z') ==> u == c
    ensures !('a' <= u <= 'z')
  {
    if 'a' <= c <= 'z' then (c as int - 32) as char else c
  }

  /** The string `s` with its first character upper-cased; the empty string
      stays empty. */
  function Capitalize(s: string): (r: string)
    ensures |r| == |s|
    ensures s != [] ==> r[0] == ToUpper(s[0]) && r[1..] == s[1..]
  {
    if s == [] then [] else [ToUpper(s[0])] + s[1..]
  }

  /** `UppercaseFirst`: copies the name into a character array, upper-cases
      the first slot in place and builds a string from the array. */
  method UppercaseFirst(s: string) returns (r: string)
    ensures r == Capitalize(s)
  {
    if |s| == 0 {
      return [];
    }
    var a := new char[|s|](i requires 0 <= i < |s| => s[i]);
    a[0] := ToUpper(a[0]);
    r := a[..];
    assert r[1..] == s[1..];
  }
}
