/**
 * The classifier that decides whether an element's visible text reads as a
 * question: its lower-cased text starts with one of a fixed list of words.
 */
module Question {

  /** The closed list of interrogative and auxiliary words, in the source's order. */
  const QuestionWords: seq<string> :=
    ["what", "why", "how", "when", "who", "where", "which", "is", "can", "could", "should"]

  /** Length of the longest word in QuestionWords ("should"). */
  const LongestWord: nat := 6

  /** Lower-cases one character; only the ASCII letters A-Z change. */
  function LowerChar(c: char): char
  {
    if 'A' <= c <= 'Z' then (c as int - 'A' as int + 'a' as int) as char else c
  }

  /** `String.prototype.toLowerCase` on the ASCII letters: same length, each character lowered. */
  function ToLower(s: string): (r: string)
    ensures |r| == |s|
    ensures forall i :: 0 <= i < |s| ==> r[i] == LowerChar(s[i])
  {
    if s == [] then [] else [LowerChar(s[0])] + ToLower(s[1..])
  }

  /** `s.startsWith(prefix)`. */
  predicate StartsWith(s: string, prefix: string)
  {
    |prefix| <= |s| && s[..|prefix|] == prefix
  }

  /** `words.some(word => s.startsWith(word))`, scanning the list from the front. */
  predicate SomeStartsWith(words: seq<string>, s: string)
  {
    words != [] && (StartsWith(s, words[0]) || SomeStartsWith(words[1..], s))
  }

  /** The `some` scan is true exactly when some listed word is a prefix of `s`. */
  lemma {:induction false} SomeStartsWithIff(words: seq<string>, s: string)
    ensures SomeStartsWith(words, s) <==> exists w :: w in words && StartsWith(s, w)
  {
    if words != [] {
      SomeStartsWithIff(words[1..], s);
      assert forall w :: w in words <==> w == words[0] || w in words[1..] by {
        assert words == [words[0]] + words[1..];
      }
    }
  }

  /** `isQuestion(text)`: the lower-cased text starts with one of QuestionWords. */
  predicate IsQuestion(text: string)
  {
    SomeStartsWith(QuestionWords, ToLower(text))
  }

  /** Reference reading of the classifier: a raw prefix test on the lowered text. */
  lemma IsQuestionIff(text: string)
    ensures IsQuestion(text) <==> exists w :: w in QuestionWords && StartsWith(ToLower(text), w)
  {
    SomeStartsWithIff(QuestionWords, ToLower(text));
  }

  /** Lowering commutes with taking a prefix. */
  lemma ToLowerPrefix(s: string, n: nat)
    requires n <= |s|
    ensures ToLower(s)[..n] == ToLower(s[..n])
  {
  }

  /**
   * Only the first LongestWord characters matter: a text is a question exactly
   * when its first six characters are.
   */
  lemma {:induction false} IsQuestionLooksAtSixCharacters(text: string)
    requires |text| >= LongestWord
    ensures IsQuestion(text) <==> IsQuestion(text[..LongestWord])
  {
    IsQuestionIff(text);
    IsQuestionIff(text[..LongestWord]);
    ToLowerPrefix(text, LongestWord);
    var lowered := ToLower(text);
    forall w | w in QuestionWords
      ensures StartsWith(lowered, w) <==> StartsWith(lowered[..LongestWord], w)
    {
      assert |w| <= LongestWord;
      assert lowered[..LongestWord][..|w|] == lowered[..|w|];
    }
  }

  /** No word boundary is required: extending a question-like text keeps it question-like. */
  lemma {:induction false} IsQuestionExtends(text: string, more: string)
    requires IsQuestion(text)
    ensures IsQuestion(text + more)
  {
    IsQuestionIff(text);
    IsQuestionIff(text + more);
    var w :| w in QuestionWords && StartsWith(ToLower(text), w);
    ToLowerPrefix(text, |w|);
    ToLowerPrefix(text + more, |w|);
    assert (text + more)[..|w|] == text[..|w|];
    assert StartsWith(ToLower(text + more), w);
  }

  /**
   * A question-like text has at least two characters and begins with one of
   * w, h, i, c, s in either case.
   */
  lemma {:induction false} IsQuestionFirstLetter(text: string)
    requires IsQuestion(text)
    ensures |text| >= 2 && LowerChar(text[0]) in "whics"
  {
    IsQuestionIff(text);
    var w :| w in QuestionWords && StartsWith(ToLower(text), w);
    assert ToLower(text)[0] == w[0];
  }

  /** A text whose first character is not one of w, h, i, c, s (in either case) is not a question. */
  lemma OtherFirstLetterIsNotQuestion(text: string)
    requires |text| > 0 && LowerChar(text[0]) !in "whics"
    ensures !IsQuestion(text)
  {
    if IsQuestion(text) {
      IsQuestionFirstLetter(text);
    }
  }

  /** No trimming: text that begins with whitespace is never a question. */
  lemma LeadingWhitespaceIsNotQuestion(text: string)
    requires |text| > 0 && text[0] in " \t\n\r"
    ensures !IsQuestion(text)
  {
    OtherFirstLetterIsNotQuestion(text);
  }

  /** Worked cases of the raw prefix test: a capitalised question word matches. */
  lemma CapitalisedQuestionMatches()
    ensures IsQuestion("What is X?")
  {
  }

  /** Without a word boundary, "however" matches "how". */
  lemma PrefixWithoutWordBoundaryMatches()
    ensures IsQuestion("however")
  {
  }

  /** "Issue" matches "is". */
  lemma AuxiliaryPrefixMatches()
    ensures IsQuestion("Issue")
  {
    var lowered := ToLower("Issue");
    assert lowered[..2] == "is";
    IsQuestionIff("Issue");
  }

  /** A statement that begins with another word does not match. */
  lemma StatementDoesNotMatch()
    ensures !IsQuestion("The sky is blue.")
  {
    var text := "The sky is blue.";
    assert LowerChar(text[0]) == 't';
    OtherFirstLetterIsNotQuestion(text);
  }
}
