/**
 * The two logic helpers of lib/utils.ts: `getInitials`, the avatar fallback
 * text, and the clamp and hue of `getScoreColor`.
 */
module Utils {
  import opened Text
  import opened Seqs

  /** `n[0]` joined as a string: an empty word's `n[0]` is undefined and joins as nothing. */
  function FirstChar(word: string): (r: string)
    ensures |r| <= 1
    ensures word == "" <==> r == ""
    ensures word != "" ==> r[0] == word[0]
  {
    if word == "" then "" else [word[0]]
  }

  /** `names.map(n => n[0]).join('')`. */
  function FirstChars(words: seq<string>): string {
    FlatMap(words, FirstChar)
  }

  /** `substring(0, n)`. */
  function Prefix(s: string, n: nat): (r: string)
    ensures |r| == if |s| <= n then |s| else n
    ensures r <= s
  {
    if |s| <= n then s else s[..n]
  }

  function GetInitials(name: string): (r: string)
    ensures name == "" ==> r == ""
    ensures |r| <= 2
    ensures forall i :: 0 <= i < |r| ==> !('a' <= r[i] <= 'z')
  {
    if name == "" then ""
    else Upper(Prefix(FirstChars(Split(name, ' ')), 2))
  }

  /** The words that are not empty, in their order. */
  function NonEmptyWords(words: seq<string>): (r: seq<string>)
    ensures |r| <= |words|
    ensures forall i :: 0 <= i < |r| ==> r[i] != "" && r[i] in words
  {
    if words == [] then []
    else (if words[0] == "" then [] else [words[0]]) + NonEmptyWords(words[1..])
  }

  /** The first character of every word. */
  function Heads(words: seq<string>): (r: string)
    requires forall i :: 0 <= i < |words| ==> words[i] != ""
    ensures |r| == |words| && forall i :: 0 <= i < |words| ==> r[i] == words[i][0]
  {
    seq(|words|, i requires 0 <= i < |words| => words[i][0])
  }

  /** Joining `n[0]` over all words gives the first characters of the non-empty words. */
  lemma {:induction false} FirstCharsHeads(words: seq<string>)
    ensures FirstChars(words) == Heads(NonEmptyWords(words))
  {
    if words != [] {
      FirstCharsHeads(words[1..]);
      var head := if words[0] == "" then [] else [words[0]];
      var rest := NonEmptyWords(words[1..]);
      assert NonEmptyWords(words) == head + rest;
      assert Heads(head + rest) == Heads(head) + Heads(rest);
    }
  }

  /**
   * For every name: the initials are the first characters of the first two
   * non-empty space-separated words, upper-cased.
   */
  lemma InitialsOfWords(name: string)
    ensures GetInitials(name) == Upper(Prefix(Heads(NonEmptyWords(Split(name, ' '))), 2))
  {
    FirstCharsHeads(Split(name, ' '));
    if name == "" {
      SplitNoSeparator(name, ' ');
      assert NonEmptyWords([""]) == [] + NonEmptyWords([]);
    }
  }

  /** A single word gives its first character, upper-cased. */
  lemma InitialsOfOneWord(word: string)
    requires word != "" && ' ' !in word
    ensures GetInitials(word) == Upper([word[0]])
  {
    SplitNoSeparator(word, ' ');
    FlatMapSingle(word, FirstChar);
  }

  /** The initials are the first characters of the first two non-empty words, upper-cased. */
  lemma {:induction false} InitialsOfTwoWords(first: string, second: string, rest: string)
    requires first != "" && second != "" && ' ' !in first && ' ' !in second
    ensures GetInitials(first + " " + second + rest) == Upper([first[0], second[0]])
  {
    var tail := second + rest;
    assert first + " " + second + rest == first + [' '] + tail;
    SplitConcat(first, tail, ' ');
    SplitNoSeparator(first, ' ');
    assert Split(first, ' ') == [first];
    var words := Split(tail, ' ');
    FlatMapConcat([first], words, FirstChar);
    FlatMapSingle(first, FirstChar);
    SplitPrefixWord(second, rest);
    assert FirstChars(words)[0] == second[0];
  }

  /** A leading word with no space in it is the first word of the split, whatever follows. */
  lemma {:induction false} SplitPrefixWord(word: string, rest: string)
    requires word != "" && ' ' !in word
    ensures var words := Split(word + rest, ' ');
      words[0] != "" && words[0][0] == word[0] && FirstChars(words)[0] == word[0]
  {
    var words := Split(word + rest, ' ');
    SplitHead(word, rest);
    assert words[0] != "" && words[0][0] == word[0];
    FlatMapConcat([words[0]], words[1..], FirstChar);
    assert [words[0]] + words[1..] == words;
    FlatMapSingle(words[0], FirstChar);
  }

  lemma {:induction false} SplitHead(word: string, rest: string)
    requires word != "" && ' ' !in word
    ensures var words := Split(word + rest, ' ');
      words[0] != "" && words[0][0] == word[0]
  {
    var s := word + rest;
    if ' ' in rest {
      var j := FirstSpace(rest);
      assert s == word + rest[..j] + [' '] + rest[j + 1..];
      SplitConcat(word + rest[..j], rest[j + 1..], ' ');
      SplitNoSeparator(word + rest[..j], ' ');
      assert (word + rest[..j])[0] == word[0];
    } else {
      assert ' ' !in s;
      SplitNoSeparator(s, ' ');
    }
  }

  /** The position of the first space of a string that has one. */
  function FirstSpace(s: string): (j: nat)
    requires ' ' in s
    ensures j < |s| && s[j] == ' ' && ' ' !in s[..j]
  {
    if s[0] == ' ' then 0
    else
      var j := FirstSpace(s[1..]);
      assert s[..j + 1] == [s[0]] + s[1..][..j];
      j + 1
  }

  /** Repeated spaces make empty words, which add nothing to the initials. */
  lemma {:induction false} EmptyWordsIgnored(a: string, b: string)
    requires a != ""
    ensures GetInitials(a + "  " + b) == GetInitials(a + " " + b)
  {
    var sa := Split(a, ' ');
    var sb := Split(b, ' ');
    var tail := [' '] + b;
    assert a + "  " + b == a + [' '] + tail;
    assert tail == "" + [' '] + b;
    SplitConcat(a, tail, ' ');
    SplitConcat("", b, ' ');
    SplitNoSeparator("", ' ');
    assert Split(tail, ' ') == [""] + sb;
    assert a + " " + b == a + [' '] + b;
    SplitConcat(a, b, ' ');
    calc {
      FirstChars(sa + ([""] + sb));
      { FlatMapConcat(sa, [""] + sb, FirstChar); }
      FirstChars(sa) + FirstChars([""] + sb);
      { FlatMapConcat([""], sb, FirstChar); FlatMapSingle("", FirstChar); }
      FirstChars(sa) + FirstChars(sb);
      { FlatMapConcat(sa, sb, FirstChar); }
      FirstChars(sa + sb);
    }
  }

  /** `clamp(score, 0, 100)`. */
  function ClampScore(score: real): (s: real)
    ensures 0.0 <= s <= 100.0
    ensures score < 0.0 ==> s == 0.0
    ensures score > 100.0 ==> s == 100.0
    ensures 0.0 <= score <= 100.0 ==> s == score
  {
    var low := if score < 100.0 then score else 100.0;
    if 0.0 < low then low else 0.0
  }

  /** An HSL colour. */
  datatype Hsl = Hsl(hue: real, saturation: real, lightness: real)

  const StartHue: real := 0.0
  const EndHue: real := 130.0

  /** `getScoreColor` before formatting: a hue from red (0) to green (130). */
  function ScoreColor(score: real): (c: Hsl)
    ensures 0.0 <= c.hue <= 130.0
    ensures c.hue == 1.3 * ClampScore(score)
    ensures c.saturation == 50.0 && c.lightness == 50.0
  {
    var s := ClampScore(score);
    Hsl(StartHue + ((EndHue - StartHue) * s) / 100.0, 50.0, 50.0)
  }

  /** A higher score never gets a redder hue. */
  lemma HueMonotone(a: real, b: real)
    requires a <= b
    ensures ScoreColor(a).hue <= ScoreColor(b).hue
  {
    assert ClampScore(a) <= ClampScore(b);
  }
}
