/**
 * `TYPO_MAP`, shared by src/components/ui/TypewriterText.tsx and
 * src/hooks/useTypewriter.ts: for each lower-case letter, the two keys next
 * to it that a slipping finger hits instead. A typo for an upper-case letter
 * is the upper-cased neighbour.
 */
module TypoMap {
  import opened Wrappers
  import opened JsString

  /** The map's entry for `key`; empty when `key` has none. */
  function Neighbours(key: char): (ns: seq<char>)
    ensures |ns| == 0 || |ns| == 2
  {
    match key
    case 'a' => ['s', 'q']   case 'b' => ['v', 'n']   case 'c' => ['x', 'v']   case 'd' => ['s', 'f']
    case 'e' => ['w', 'r']   case 'f' => ['d', 'g']   case 'g' => ['f', 'h']   case 'h' => ['g', 'j']
    case 'i' => ['u', 'o']   case 'j' => ['h', 'k']   case 'k' => ['j', 'l']   case 'l' => ['k', ';']
    case 'm' => ['n', ',']   case 'n' => ['b', 'm']   case 'o' => ['i', 'p']   case 'p' => ['o', '[']
    case 'q' => ['w', 'a']   case 'r' => ['e', 't']   case 's' => ['a', 'd']   case 't' => ['r', 'y']
    case 'u' => ['y', 'i']   case 'v' => ['c', 'b']   case 'w' => ['q', 'e']   case 'x' => ['z', 'c']
    case 'y' => ['t', 'u']   case 'z' => ['x', 'a']
    case _ => []
  }

  /** Whether `TYPO_MAP[key]` is defined. */
  predicate HasEntry(key: char)
  {
    |Neighbours(key)| > 0
  }

  /** The map has an entry for exactly the 26 lower-case letters. */
  lemma EntriesAreLetters(key: char)
    ensures HasEntry(key) <==> 'a' <= key <= 'z'
  {
  }

  /** No key is its own neighbour, and neither is its upper-case form. */
  lemma NeighboursDiffer(key: char)
    ensures forall n :: n in Neighbours(key) ==> n != key && Upper(n) != Upper(key)
  {
  }

  /**
   * The typo typed for `c` when the map has an entry for its lower case:
   * `typos[Math.floor(pick * typos.length)]`, upper-cased when `c` is not
   * lower case. `pick` is the draw of `Math.random()`.
   */
  function TypoFor(c: char, pick: real): (t: Option<char>)
    requires 0.0 <= pick < 1.0
    ensures t.Some? <==> HasEntry(Lower(c))
    ensures t.Some? && c == Lower(c) ==> t.value in Neighbours(c)
    ensures t.Some? && c != Lower(c) ==> exists n :: n in Neighbours(Lower(c)) && t.value == Upper(n)
  {
    var ns := Neighbours(Lower(c));
    if |ns| == 0 then None
    else
      var n := ns[(pick * 2.0).Floor];
      Some(if c == Lower(c) then n else Upper(n))
  }

  /** A typo never happens to be the intended character, so the correction is always visible. */
  lemma TypoDiffers(c: char, pick: real)
    requires 0.0 <= pick < 1.0
    ensures TypoFor(c, pick).Some? ==> TypoFor(c, pick).value != c
  {
    var t := TypoFor(c, pick);
    if t.Some? {
      EntriesAreLetters(Lower(c));
      NeighboursDiffer(Lower(c));
      CaseRoundTrip(c);
    }
  }

  /** A typo keeps the case of the letter it replaces when the neighbour is a letter. */
  lemma TypoKeepsCase(c: char, pick: real)
    requires 0.0 <= pick < 1.0
    ensures var t := TypoFor(c, pick);
            t.Some? && 'a' <= c <= 'z' ==> !('A' <= t.value <= 'Z')
    ensures var t := TypoFor(c, pick);
            t.Some? && 'A' <= c <= 'Z' ==> !('a' <= t.value <= 'z')
  {
  }
}
