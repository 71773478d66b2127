/**
 * The one-time password generator: sixteen characters drawn from the ASCII
 * letters and digits. The random generator is replaced by the sequence of
 * indices it draws.
 */
module Password {

  /** The default password length. */
  const PasswordLength: nat := 16

  /** The size of the alphabet: 26 lower-case letters, 26 upper-case letters, 10 digits. */
  const AlphabetSize: nat := 62

  /** Character `i` of `ascii_letters + digits`. */
  function AlphabetAt(i: nat): (c: char)
    requires i < AlphabetSize
    ensures IsAlphanumeric(c)
  {
    if i < 26 then ('a' as int + i) as char
    else if i < 52 then ('A' as int + (i - 26)) as char
    else ('0' as int + (i - 52)) as char
  }

  /** `string.ascii_letters + string.digits`. */
  function Alphabet(): (s: string)
    ensures |s| == AlphabetSize
    ensures forall i :: 0 <= i < |s| ==> IsAlphanumeric(s[i])
  {
    seq(AlphabetSize, i requires 0 <= i < AlphabetSize => AlphabetAt(i))
  }

  predicate IsAlphanumeric(c: char) {
    'a' <= c <= 'z' || 'A' <= c <= 'Z' || '0' <= c <= '9'
  }

  /** What every generated password satisfies. */
  predicate ValidPassword(p: string) {
    |p| == PasswordLength && forall i :: 0 <= i < |p| ==> IsAlphanumeric(p[i])
  }

  /** A sequence of indices the generator may draw, one per character. */
  predicate ValidDraws(draws: seq<nat>) {
    forall i :: 0 <= i < |draws| ==> draws[i] < AlphabetSize
  }

  /** `randomized_password(len(draws))`, with `random.choices` replaced by `draws`. */
  function RandomizedPassword(draws: seq<nat>): (p: string)
    requires ValidDraws(draws)
    ensures |p| == |draws|
    ensures forall i :: 0 <= i < |p| ==> IsAlphanumeric(p[i])
    ensures |draws| == PasswordLength ==> ValidPassword(p)
  {
    var alphabet := Alphabet();
    seq(|draws|, i requires 0 <= i < |draws| => alphabet[draws[i]])
  }

  /** The position of an alphanumeric character in the alphabet. */
  function IndexOf(c: char): (i: nat)
    requires IsAlphanumeric(c)
    ensures i < AlphabetSize && Alphabet()[i] == c
  {
    if 'a' <= c <= 'z' then c as int - 'a' as int
    else if 'A' <= c <= 'Z' then c as int - 'A' as int + 26
    else c as int - '0' as int + 52
  }

  /**
   * The generator can produce every valid password: modelling the password
   * as "any sixteen alphanumeric characters" loses nothing.
   */
  lemma PasswordReachable(p: string)
    requires ValidPassword(p)
    ensures exists draws :: |draws| == PasswordLength && ValidDraws(draws) && RandomizedPassword(draws) == p
  {
    var draws := seq(|p|, i requires 0 <= i < |p| => IndexOf(p[i]));
    assert ValidDraws(draws);
    assert RandomizedPassword(draws) == p;
  }
}
