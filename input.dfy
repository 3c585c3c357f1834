/**
 * The pure parts of the editor's input handlers: cleaning the typed pattern sequence, and the
 * on-screen keyboard's note table.
 */
module Input {
  import opened Wrappers
  import opened Patterns

  /** A playable sequence: at least one step, every step a pattern letter. */
  predicate ValidSequence(s: seq<char>)
  {
    |s| > 0 && forall k :: 0 <= k < |s| ==> s[k] in PatternLetters
  }

  /**
   * The pattern letter a typed character leaves once upper-cased and filtered to [ABCD], if
   * any. Under Unicode's full case mappings, besides A-D themselves, a-d upper-case to A-D and
   * U+1E9A (a with right half ring) upper-cases to the two characters "A" and U+02BE, of which
   * the filter keeps "A"; no other character's upper-case form contains a pattern letter.
   */
  function PatternLetterOf(c: char): (r: Option<char>)
    ensures r.Some? ==> r.value in PatternLetters
    ensures r == Some('A') <==> c == 'A' || c == 'a' || c == '\U{1E9A}'
    ensures r == Some('B') <==> c == 'B' || c == 'b'
    ensures r == Some('C') <==> c == 'C' || c == 'c'
    ensures r == Some('D') <==> c == 'D' || c == 'd'
  {
    match c
    case 'A' => Some('A') case 'B' => Some('B') case 'C' => Some('C') case 'D' => Some('D')
    case 'a' => Some('A') case 'b' => Some('B') case 'c' => Some('C') case 'd' => Some('D')
    case '\U{1E9A}' => Some('A')
    case _ => None
  }

  /** text.toUpperCase().replace(/[^ABCD]/g, ''), character by character. */
  function Filtered(text: string): (r: seq<char>)
    ensures |r| <= |text|
    ensures forall k :: 0 <= k < |r| ==> r[k] in PatternLetters
  {
    if text == [] then []
    else
      match PatternLetterOf(text[0])
      case Some(l) => [l] + Filtered(text[1..])
      case None => Filtered(text[1..])
  }

  /** The sequence the sequence field receives: the filtered letters, or ['A'] if none remain. */
  function CleanSequence(text: string): (r: seq<char>)
    ensures ValidSequence(r)
  {
    var f := Filtered(text);
    if |f| > 0 then f else ['A']
  }

  /** A single typed character leaves exactly the pattern letter its upper-case form names. */
  lemma FilteredChar(c: char)
    ensures Filtered([c]) == (if PatternLetterOf(c).Some? then [PatternLetterOf(c).value] else [])
  {
    assert [c][1..] == [];
  }

  /** Filtering text typed in two pieces is filtering each piece. */
  lemma {:induction false} FilteredAppend(a: string, b: string)
    ensures Filtered(a + b) == Filtered(a) + Filtered(b)
  {
    if a != [] {
      assert (a + b)[1..] == a[1..] + b;
      FilteredAppend(a[1..], b);
    } else {
      assert a + b == b;
    }
  }

  /** Nothing is left exactly when no character names a pattern. */
  lemma {:induction false} FilteredEmpty(text: string)
    ensures Filtered(text) == [] <==> forall k :: 0 <= k < |text| ==> PatternLetterOf(text[k]).None?
  {
    if text != [] {
      FilteredEmpty(text[1..]);
      assert forall k :: 1 <= k < |text| ==> text[k] == text[1..][k - 1];
    }
  }

  /** A text made of pattern letters only passes the filter unchanged. */
  lemma {:induction false} FilteredLetters(s: seq<char>)
    requires forall k :: 0 <= k < |s| ==> s[k] in PatternLetters
    ensures Filtered(s) == s
  {
    if s != [] {
      assert forall k :: 0 <= k < |s[1..]| ==> s[1..][k] == s[k + 1];
      FilteredLetters(s[1..]);
    }
  }

  /** The input box shows sequence.join(''); cleaning what it shows gives the sequence back. */
  lemma CleanShownSequence(s: seq<char>)
    requires ValidSequence(s)
    ensures CleanSequence(s) == s
  {
    FilteredLetters(s);
  }

  /** Cleaning is idempotent. */
  lemma CleanIdempotent(text: string)
    ensures CleanSequence(CleanSequence(text)) == CleanSequence(text)
  {
    CleanShownSequence(CleanSequence(text));
  }

  /** "B" followed by U+1E9A upper-cases to "BA" plus U+02BE, so the stored sequence is B, A. */
  lemma CleanLigature()
    ensures CleanSequence("B\U{1E9A}") == ['B', 'A']
  {
    assert "B\U{1E9A}"[1..] == "\U{1E9A}";
  }

  /** The own keys of NOTES_MAP, in keyboard order from middle C to the C above. */
  const NoteKeys: seq<string> :=
    ["c4", "c#", "d", "d#", "e", "f", "f#", "g", "g#", "a", "a#", "b", "c5"]

  /** NOTES_MAP: the keys of the on-screen keyboard and their frequencies in Hz. */
  function NoteFrequency(key: string): (f: Option<real>)
    ensures f.Some? <==> key in NoteKeys
    ensures f.Some? ==> MiddleC <= f.value <= 523.25
  {
    match key
    case "c4" => Some(261.63) case "c#" => Some(277.18) case "d" => Some(293.66)
    case "d#" => Some(311.13) case "e" => Some(329.63) case "f" => Some(349.23)
    case "f#" => Some(369.99) case "g" => Some(392.00) case "g#" => Some(415.30)
    case "a" => Some(440.00) case "a#" => Some(466.16) case "b" => Some(493.88)
    case "c5" => Some(523.25)
    case _ => None
  }

  /** The frequencies rise strictly along the keyboard. */
  lemma NoteFrequencyRising(i: int)
    requires 0 <= i < |NoteKeys| - 1
    ensures NoteFrequency(NoteKeys[i]).Some? && NoteFrequency(NoteKeys[i + 1]).Some?
    ensures NoteFrequency(NoteKeys[i]).value < NoteFrequency(NoteKeys[i + 1]).value
  {
  }
}
