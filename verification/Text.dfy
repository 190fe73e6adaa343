/** String operations of the services, on ASCII letters. */
module Text {

  /** `toUpperCase`. */
  function Upper(s: string): (r: string)
    ensures |r| == |s|
  {
    seq(|s|, i requires 0 <= i < |s| => if 'a' <= s[i] <= 'z' then (s[i] as int - 32) as char else s[i])
  }

  /** `toLowerCase`. */
  function Lower(s: string): (r: string)
    ensures |r| == |s|
  {
    seq(|s|, i requires 0 <= i < |s| => if 'A' <= s[i] <= 'Z' then (s[i] as int + 32) as char else s[i])
  }

  lemma UpperTwice(s: string)
    ensures Upper(Upper(s)) == Upper(s)
  {}

  // The letters, and nothing else, change case.

  lemma UpperAlphabet()
    ensures Upper("abcdefghijklmnopqrstuvwxyz") == "ABCDEFGHIJKLMNOPQRSTUVWXYZ"
  {}

  lemma LowerAlphabet()
    ensures Lower("ABCDEFGHIJKLMNOPQRSTUVWXYZ") == "abcdefghijklmnopqrstuvwxyz"
  {}

  lemma OthersStay(s: string, i: nat)
    requires i < |s|
    ensures !('a' <= s[i] <= 'z') ==> Upper(s)[i] == s[i]
    ensures !('A' <= s[i] <= 'Z') ==> Lower(s)[i] == s[i]
  {}
}
