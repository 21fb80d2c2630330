/** `str.capitalize` on ASCII text: the first character upper case, all the
    others lower case; characters that are not ASCII letters are kept. */
module Text {

  predicate IsUpper(c: char) {
    'A' <= c <= 'Z'
  }

  predicate IsLower(c: char) {
    'a' <= c <= 'z'
  }

  function ToUpper(c: char): (u: char)
    ensures !IsLower(u)
  {
    if IsLower(c) then (c as int - 32) as char else c
  }

  function ToLower(c: char): (l: char)
    ensures !IsUpper(l)
  {
    if IsUpper(c) then (c as int + 32) as char else c
  }

  function LowerAll(s: string): (r: string)
    ensures |r| == |s|
    ensures forall i :: 0 <= i < |s| ==> r[i] == ToLower(s[i])
  {
    seq(|s|, i requires 0 <= i < |s| => ToLower(s[i]))
  }

  function Capitalize(s: string): (r: string)
    ensures |r| == |s|
    ensures |s| > 0 ==> !IsLower(r[0]) && ToLower(r[0]) == ToLower(s[0])
    ensures forall i :: 1 <= i < |s| ==> !IsUpper(r[i]) && r[i] == ToLower(s[i])
  {
    if s == [] then [] else [ToUpper(s[0])] + LowerAll(s[1..])
  }

  /** Capitalising twice is capitalising once. */
  lemma CapitalizeIdempotent(s: string)
    ensures Capitalize(Capitalize(s)) == Capitalize(s)
  {
  }

  /** The vote's sentinel is already capitalised, so the display shows it as
      it is; an emotion label gains an upper-case initial. */
  lemma CapitalizeExamples()
    ensures Capitalize("Detecting...") == "Detecting..."
    ensures Capitalize("happy") == "Happy"
  {
    assert Capitalize("Detecting...")[0] == 'D';
    assert Capitalize("happy")[0] == 'H';
  }
}
