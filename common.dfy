/** Small shared vocabulary: an optional value (Java's nullable references),
    ASCII case rules (the model of Character.isUpperCase/isLowerCase and
    String.toUpperCase) and the string joining done by Collectors.joining. */
module Common {

  /** A Java reference that may be null. */
  datatype Option<+T> = None | Some(value: T) {
    function GetOr(default: T): T {
      match this
      case Some(v) => v
      case None => default
    }
  }

  predicate IsAsciiUpper(c: char) { 'A' <= c <= 'Z' }

  predicate IsAsciiLower(c: char) { 'a' <= c <= 'z' }

  /** The upper-case form of one character; only ASCII letters change. */
  function UpperChar(c: char): (u: char)
    ensures !IsAsciiLower(u)
    ensures IsAsciiLower(c) ==> IsAsciiUpper(u) && u as int + 32 == c as int
    ensures !IsAsciiLower(c) ==> u == c
  {
    if IsAsciiLower(c) then (c as int - 32) as char else c
  }

  /** No character of `s` is a lower-case letter. */
  predicate NoLowerCase(s: string) {
    forall i :: 0 <= i < |s| ==> !IsAsciiLower(s[i])
  }

  /** `s` and `t` differ at most in the case of ASCII letters. */
  predicate EqualIgnoringCase(s: string, t: string) {
    |s| == |t| && forall i :: 0 <= i < |s| ==> UpperChar(s[i]) == UpperChar(t[i])
  }

  /** String.toUpperCase, restricted to ASCII letters. */
  function ToUpper(s: string): (r: string)
    ensures |r| == |s|
    ensures forall i :: 0 <= i < |s| ==> r[i] == UpperChar(s[i])
  {
    if s == [] then [] else [UpperChar(s[0])] + ToUpper(s[1..])
  }

  /** The upper-cased string is the only string without lower-case letters
      that equals the input up to case, and upper-casing twice changes
      nothing more. */
  lemma ToUpperCharacterised(s: string, r: string)
    ensures (r == ToUpper(s)) <==> (NoLowerCase(r) && EqualIgnoringCase(r, s))
    ensures ToUpper(ToUpper(s)) == ToUpper(s)
  {
    if NoLowerCase(r) && EqualIgnoringCase(r, s) {
      forall i | 0 <= i < |s| ensures r[i] == ToUpper(s)[i] {
        assert !IsAsciiLower(r[i]);
        assert UpperChar(r[i]) == r[i];
      }
    }
  }

  /** Collectors.joining(sep): the parts in order with `sep` between
      neighbours. */
  function Join(parts: seq<string>, sep: string): (r: string)
    ensures |parts| == 1 ==> r == parts[0]
  {
    if |parts| == 0 then ""
    else if |parts| == 1 then parts[0]
    else Join(parts[..|parts| - 1], sep) + sep + parts[|parts| - 1]
  }

  /** Appending a part adds exactly the separator and that part, or gives
      the part alone when there was none before. */
  lemma JoinSnoc(parts: seq<string>, sep: string, last: string)
    ensures Join(parts + [last], sep) == if parts == [] then last else Join(parts, sep) + sep + last
  {
    assert (parts + [last])[..|parts|] == parts;
  }
}
