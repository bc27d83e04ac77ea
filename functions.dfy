/** String helpers of the frontend (src/lib/utils/functions.ts). Characters are
    Unicode scalar values (UTF-16 code units are not modelled) and upper-casing
    is the ASCII mapping. */
module Functions {

  predicate IsLower(c: char) {
    'a' <= c <= 'z'
  }

  /** `toUpperCase` on one character: a..z become A..Z, everything else is kept. */
  function ToUpper(c: char): (r: char)
    ensures !IsLower(r)
    ensures !IsLower(c) ==> r == c
    ensures IsLower(c) ==> 'A' <= r <= 'Z' && r as int + 32 == c as int
  {
    if IsLower(c) then (c as int - 32) as char else c
  }

  /** `capitalised`: the first character upper-cased, the rest unchanged. There is
      no check for an already capitalised string. */
  function Capitalised(s: string): (r: string)
    ensures |r| == |s|
    ensures s != [] ==> r[0] == ToUpper(s[0])
    ensures forall i :: 1 <= i < |s| ==> r[i] == s[i]
  {
    if s == [] then [] else [ToUpper(s[0])] + s[1..]
  }

  /** Capitalising twice is capitalising once. */
  lemma CapitalisedIdempotent(s: string)
    ensures Capitalised(Capitalised(s)) == Capitalised(s)
  {
  }

  /** Upper-casing never lower-cases and never touches a non-letter. */
  lemma ToUpperIdempotent(c: char)
    ensures ToUpper(ToUpper(c)) == ToUpper(c)
  {
  }
}
