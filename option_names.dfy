/**
 Option names. The daemon spells its option names with hyphens
 (`max-download-limit`); callers may use underscores instead, because a hyphen
 cannot appear in a Python attribute name. Every name is translated to the
 daemon's spelling before it is used as a key.
 */
module OptionNames {

  /** The canonical form of one character of a name: `_` becomes `-`. */
  function Canon(c: char): char
  {
    if c == '_' then '-' else c
  }

  /** The two separators a caller may use between the words of a name. */
  predicate IsSeparator(c: char)
  {
    c == '_' || c == '-'
  }

  /** The key a name stands for (Python's `name.replace("_", "-")`): the name
      with every `_` replaced by `-` and every other character kept. */
  function Norm(name: string): (key: string)
    ensures |key| == |name|
    ensures '_' !in key
    ensures forall i :: 0 <= i < |name| && name[i] != '_' ==> key[i] == name[i]
    ensures forall i :: 0 <= i < |name| && name[i] == '_' ==> key[i] == '-'
  {
    seq(|name|, i requires 0 <= i < |name| => Canon(name[i]))
  }

  /** Two names are spellings of one option when they agree everywhere except
      where both hold a separator, of either kind. */
  predicate SameOption(a: string, b: string)
  {
    && |a| == |b|
    && forall i :: 0 <= i < |a| ==> a[i] == b[i] || (IsSeparator(a[i]) && IsSeparator(b[i]))
  }

  /** The names Norm leaves alone are exactly those without an underscore. */
  lemma NormFixedPoints(name: string)
    ensures Norm(name) == name <==> '_' !in name
  {
  }

  /** Normalizing twice gives the key normalizing once gives. */
  lemma NormIdempotent(name: string)
    ensures Norm(Norm(name)) == Norm(name)
  {
  }

  /** Two names lead to the same key exactly when they spell the same option. */
  lemma NormSameKey(a: string, b: string)
    ensures Norm(a) == Norm(b) <==> SameOption(a, b)
  {
  }

  /** Both spellings of the reserved-word option and what they resolve to:
      the hyphenated name is a key as it stands, while the attribute name with
      a trailing underscore resolves to a different key, `continue-`. */
  lemma ContinueNames()
    ensures Norm("continue") == "continue"
    ensures Norm("continue_") == "continue-"
    ensures Norm("continue_") != "continue"
  {
  }
}
