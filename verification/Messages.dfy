/** Which error messages get which failure class, told from the words they contain. */
module Messages {
  import opened Decimals
  import opened RetryEngine

  /** The word is somewhere in the text. */
  ghost predicate Occurs(text: string, word: string) {
    exists before, after :: text == before + word + after
  }

  ghost predicate HasAny(text: string, words: seq<string>) {
    exists word :: word in words && Occurs(text, word)
  }

  lemma {:induction false} ContainsIff(text: string, word: string)
    ensures Contains(text, word) <==> Occurs(text, word)
  {
    if Contains(text, word) {
      var i :| 0 <= i <= |text| && word <= text[i..];
      assert text == text[..i] + word + text[i + |word|..];
    }
    if before, after :| text == before + word + after {
      assert text[|before|..] == word + after;
    }
  }

  lemma {:induction false} HasNone(text: string)
    ensures !HasAny(text, [])
  {
  }

  lemma {:induction false} HasFirstOrLater(text: string, word: string, words: seq<string>)
    ensures HasAny(text, [word] + words) <==> Contains(text, word) || HasAny(text, words)
  {
    ContainsIff(text, word);
    assert forall w :: w in [word] + words <==> w == word || w in words;
  }

  lemma {:induction false} HasAnyOfTwo(text: string, a: string, b: string)
    ensures HasAny(text, [a, b]) <==> Contains(text, a) || Contains(text, b)
  {
    HasNone(text);
    HasFirstOrLater(text, b, []);
    HasFirstOrLater(text, a, [b]);
    assert [b] + [] == [b] && [a] + [b] == [a, b];
  }

  lemma {:induction false} HasAnyOfThree(text: string, a: string, b: string, c: string)
    ensures HasAny(text, [a, b, c]) <==> Contains(text, a) || Contains(text, b) || Contains(text, c)
  {
    HasAnyOfTwo(text, b, c);
    HasFirstOrLater(text, a, [b, c]);
    assert [a] + [b, c] == [a, b, c];
  }

  lemma {:induction false} HasAnyOfBoth(text: string, words: seq<string>, more: seq<string>)
    ensures HasAny(text, words + more) <==> HasAny(text, words) || HasAny(text, more)
  {
  }

  const TIMEOUT_WORDS := ["timeout", "timed out"]
  const DNS_WORDS := ["dns", "name resolution"]
  const UNREACHABLE_WORDS := ["unreachable", "network is"]
  const RATE_WORDS := ["429", "rate limit", "too many"]
  const MISSING_WORDS := ["404", "not found", "403"]
  const DENIED_WORDS := ["forbidden", "401", "unauthorized"]
  const PERMANENT_WORDS := MISSING_WORDS + DENIED_WORDS

  /** Words that make a message retryable whatever else it says. */
  const PASSING_WORDS := TIMEOUT_WORDS + DNS_WORDS + (UNREACHABLE_WORDS + RATE_WORDS)

  /** The class is that of the first group, in this order, of which the message has a word, and Transient without. */
  lemma {:induction false} ClassByWords(lower: string)
    ensures
      var timeout, dns, unreachable, rate, permanent :=
        HasAny(lower, TIMEOUT_WORDS), HasAny(lower, DNS_WORDS), HasAny(lower, UNREACHABLE_WORDS),
        HasAny(lower, RATE_WORDS), HasAny(lower, PERMANENT_WORDS);
      && (Classify(lower) == Timeout <==> timeout)
      && (Classify(lower) == DnsFailure <==> !timeout && dns)
      && (Classify(lower) == NetworkUnreachable <==> !timeout && !dns && unreachable)
      && (Classify(lower) == RateLimited <==> !timeout && !dns && !unreachable && rate)
      && (Classify(lower) == Permanent <==> !timeout && !dns && !unreachable && !rate && permanent)
      && (Classify(lower) == Transient <==> !timeout && !dns && !unreachable && !rate && !permanent)
  {
    HasAnyOfTwo(lower, "timeout", "timed out");
    HasAnyOfTwo(lower, "dns", "name resolution");
    HasAnyOfTwo(lower, "unreachable", "network is");
    HasAnyOfThree(lower, "429", "rate limit", "too many");
    HasAnyOfThree(lower, "404", "not found", "403");
    HasAnyOfThree(lower, "forbidden", "401", "unauthorized");
    HasAnyOfBoth(lower, MISSING_WORDS, DENIED_WORDS);
  }

  /** A message is permanent exactly when it has one of the six permanent words and none of the nine checked before. */
  lemma {:induction false} PermanentIff(lower: string)
    ensures Classify(lower).IsRetryable() <==> HasAny(lower, PASSING_WORDS) || !HasAny(lower, PERMANENT_WORDS)
    ensures !HasAny(lower, PASSING_WORDS) && !HasAny(lower, PERMANENT_WORDS) ==> Classify(lower) == Transient
  {
    ClassByWords(lower);
    HasAnyOfBoth(lower, TIMEOUT_WORDS, DNS_WORDS);
    HasAnyOfBoth(lower, UNREACHABLE_WORDS, RATE_WORDS);
    HasAnyOfBoth(lower, TIMEOUT_WORDS + DNS_WORDS, UNREACHABLE_WORDS + RATE_WORDS);
  }

  // ---- Exit codes ----

  const EXIT_CODE := "exit code "

  /** What a job's exit code is reported as; a killed process has code -1. */
  function ExitMessage(code: int): string {
    EXIT_CODE + if code < 0 then "-" + Decimal(-code) else Decimal(code)
  }

  predicate IsNumeral(c: char) {
    IsDigit(c) || c == '-'
  }

  predicate AllNumerals(text: string) {
    forall i :: 0 <= i < |text| ==> IsNumeral(text[i])
  }

  lemma {:induction false} LettersAreFound(text: string, word: string, k: nat)
    requires k < |word| && Contains(text, word)
    ensures word[k] in text
  {
    var i :| 0 <= i <= |text| && word <= text[i..];
    assert text[i + k] == text[i..][k] == word[k];
  }

  /** A word with a letter that "exit code" does not have is not in the message. */
  lemma {:induction false} ForeignWord(code: string, word: string, k: nat)
    requires AllNumerals(code) && k < |word| && !IsNumeral(word[k]) && word[k] !in EXIT_CODE
    ensures !Contains(EXIT_CODE + code, word)
  {
    if Contains(EXIT_CODE + code, word) {
      LettersAreFound(EXIT_CODE + code, word, k);
      assert false;
    }
  }

  lemma {:induction false} NumberInCode(code: string, number: string)
    requires AllNumerals(code) && AllNumerals(number) && number != []
    ensures Contains(EXIT_CODE + code, number) <==> Contains(code, number)
  {
    var text := EXIT_CODE + code;
    assert forall k :: 0 <= k < |EXIT_CODE| ==> text[k] == EXIT_CODE[k] && !IsNumeral(text[k]);
    if i :| 0 <= i <= |text| && number <= text[i..] {
      assert IsNumeral(text[i..][0]);
      assert text[i..] == code[i - |EXIT_CODE|..];
    }
    if i :| 0 <= i <= |code| && number <= code[i..] {
      assert text[i + |EXIT_CODE|..] == code[i..];
    }
  }

  /** Only what looks like a status of HTTP in the number itself counts. */
  lemma {:induction false} ExitMessageClass(code: string)
    requires AllNumerals(code)
    ensures
      var passing := Contains(code, "429");
      var permanent := Contains(code, "404") || Contains(code, "403") || Contains(code, "401");
      Classify(EXIT_CODE + code) == if passing then RateLimited else if permanent then Permanent else Transient
  {
    ForeignWord(code, "timeout", 2);
    ForeignWord(code, "timed out", 2);
    ForeignWord(code, "dns", 1);
    ForeignWord(code, "name resolution", 0);
    ForeignWord(code, "unreachable", 0);
    ForeignWord(code, "network is", 0);
    ForeignWord(code, "rate limit", 0);
    ForeignWord(code, "too many", 4);
    ForeignWord(code, "not found", 0);
    ForeignWord(code, "forbidden", 0);
    ForeignWord(code, "unauthorized", 0);
    NumberInCode(code, "429");
    NumberInCode(code, "404");
    NumberInCode(code, "403");
    NumberInCode(code, "401");
  }

  lemma {:induction false} ShortNumber(code: string, number: string)
    requires |code| <= |number|
    ensures Contains(code, number) ==> code == number
  {
    if i :| 0 <= i <= |code| && number <= code[i..] {
      assert |code[i..]| >= |number|;
      assert code[i..] == code;
    }
  }

  lemma {:induction false} CodeLength(n: nat)
    requires n < 1000
    ensures |Decimal(n)| == if n < 10 then 1 else if n < 100 then 2 else 3
  {
    if n >= 10 {
      CodeLength(n / 10);
    }
  }

  lemma {:induction false} ThreeDigits(s: string)
    requires |s| == 3 && forall i :: 0 <= i < |s| ==> IsDigit(s[i])
    ensures DigitsValue(s) == 100 * DigitValue(s[0]) + 10 * DigitValue(s[1]) + DigitValue(s[2])
  {
    var two := s[..2];
    assert two[..1] == s[..1] && s[..1][..0] == [];
    assert DigitsValue(s[..1]) == DigitValue(s[0]);
    assert DigitsValue(two) == 10 * DigitValue(s[0]) + DigitValue(s[1]);
  }

  lemma {:induction false} NotOver255(code: nat, number: string)
    requires code <= 255 && |number| == 3 && (forall i :: 0 <= i < |number| ==> IsDigit(number[i])) && number[0] == '4'
    ensures !Contains(Decimal(code), number)
  {
    CodeLength(code);
    DecimalValue(code);
    ThreeDigits(number);
    ShortNumber(Decimal(code), number);
  }

  /** Whatever code a process exits with, killed ones included, its job's failure is a transient one. */
  lemma {:induction false} ExitCodesAreTransient(code: int)
    requires -1 <= code <= 255
    ensures Classify(ExitMessage(code)) == Transient
  {
    var text := if code < 0 then "-" + Decimal(-code) else Decimal(code);
    if code < 0 {
      assert text == "-1";
      ShortNumber(text, "429");
      ShortNumber(text, "404");
      ShortNumber(text, "403");
      ShortNumber(text, "401");
    } else {
      NotOver255(code, "429");
      NotOver255(code, "404");
      NotOver255(code, "403");
      NotOver255(code, "401");
    }
    ExitMessageClass(text);
  }
}
