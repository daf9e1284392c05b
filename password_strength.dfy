/** The password-strength meter of src/components/Encryptor.tsx
    (`calculatePasswordStrength`): bonuses and penalties added to a score, a clamp at 0,
    the penalties for short passwords, and the score's bucket, which picks a colour and
    a label.

    Each regular-expression test is a predicate stating when the expression has a match
    somewhere in the password, by JavaScript's rules read on a string of code points.
    JavaScript runs these expressions (none has the `u` flag) on UTF-16 code units, so
    outside the Basic Multilingual Plane the lengths differ and the back-reference tests
    `HasTripleRun`, `HasDoubleRun` and `HasRepetition` can disagree with the source: a
    surrogate pair is one character here and two there.
    - `.` matches anything but a line terminator, and `\s` matches white space and line
      terminators.
    - `$` without the `m` flag matches only at the end.
    - Under the `i` flag, an ASCII letter matches its other case. No other character
      folds to an ASCII one, so comparing with ASCII letters and digits ignores case
      exactly when both sides are folded to lower case.
    An unanchored search only asks that some match exist, so a trailing `\1{2,}` or a
    leading `[a-z]+` is stated with its least count. */
module PasswordStrength {

  import opened Platform

  // ---------------------------------------------------------------------------------
  // Character classes.

  predicate IsUpper(c: char) { 'A' <= c <= 'Z' }
  predicate IsLower(c: char) { 'a' <= c <= 'z' }
  predicate IsDigit(c: char) { '0' <= c <= '9' }
  predicate IsLetter(c: char) { IsUpper(c) || IsLower(c) }

  /** `[^A-Za-z0-9]`. */
  predicate IsNonAlphanumeric(c: char) { !IsLetter(c) && !IsDigit(c) }

  /** The symbols of `[!@#$%^&*()_+={}\[\]|\\:";'<>?,.\/~\`]`. */
  const SpecialSymbols: string := "!@#$%^&*()_+={}[]|\\:\";'<>?,./~`"

  predicate IsSpecial(c: char) { c in SpecialSymbols }

  /** `[À-ÿ]`: U+00C0 to U+00FF. */
  predicate IsAccented(c: char) { '\U{00C0}' <= c <= '\U{00FF}' }

  /** `[-.\s]`, the separator of the phone-number pattern. */
  predicate IsPhoneSeparator(c: char) { c == '-' || c == '.' || IsJsWhiteSpace(c) }

  /** `[\/\-\.]`, the separator of the date pattern. */
  predicate IsDateSeparator(c: char) { c == '/' || c == '-' || c == '.' }

  /** ASCII case folding, as the `i` flag sees the characters the patterns hold. */
  function Fold(c: char): (r: char)
    ensures IsLetter(c) ==> IsLower(r)
    ensures !IsUpper(c) ==> r == c
  {
    if IsUpper(c) then (c as int + 32) as char else c
  }

  // ---------------------------------------------------------------------------------
  // The tests.

  /** Some character of `s` is upper case: `/[A-Z]/`; likewise for the other classes. */
  predicate HasUpper(s: string) { exists i :: 0 <= i < |s| && IsUpper(s[i]) }
  predicate HasLower(s: string) { exists i :: 0 <= i < |s| && IsLower(s[i]) }
  predicate HasDigit(s: string) { exists i :: 0 <= i < |s| && IsDigit(s[i]) }
  predicate HasNonAlphanumeric(s: string) { exists i :: 0 <= i < |s| && IsNonAlphanumeric(s[i]) }
  predicate HasSpecial(s: string) { exists i :: 0 <= i < |s| && IsSpecial(s[i]) }
  predicate HasAccented(s: string) { exists i :: 0 <= i < |s| && IsAccented(s[i]) }

  /** `/(.)\1{2,}/`: three equal characters in a row, not line terminators. */
  predicate HasTripleRun(s: string)
  {
    exists i :: 0 <= i < |s| - 2 && !IsLineTerminator(s[i]) && s[i + 1] == s[i] && s[i + 2] == s[i]
  }

  /** `/(.)\1/`: two equal characters in a row, not line terminators. */
  predicate HasDoubleRun(s: string)
  {
    exists i :: 0 <= i < |s| - 1 && !IsLineTerminator(s[i]) && s[i + 1] == s[i]
  }

  /** No line terminator strictly between positions `i` and `j`, so `.*` spans them. */
  predicate OnOneLine(s: string, i: int, j: int)
    requires 0 <= i <= j <= |s|
  {
    forall k :: i < k < j ==> !IsLineTerminator(s[k])
  }

  /** `/[a-z].*[A-Z]|[A-Z].*[a-z]/`: a lower-case letter and an upper-case one, in
      either order, with no line terminator between them. */
  predicate HasMixedCase(s: string)
  {
    exists i, j :: 0 <= i < j < |s| && OnOneLine(s, i, j) &&
      ((IsLower(s[i]) && IsUpper(s[j])) || (IsUpper(s[i]) && IsLower(s[j])))
  }

  /** `/\d+$/`: the password ends with a digit. */
  predicate EndsWithDigits(s: string)
  {
    |s| > 0 && IsDigit(s[|s| - 1])
  }

  /** `(?=.*X)` at position `at`: a character of class X at or after `at` on the same
      line. */
  predicate AheadOnLine(s: string, at: int, cls: char -> bool)
    requires 0 <= at <= |s|
  {
    exists j :: at <= j < |s| && cls(s[j]) && forall k :: at <= k < j ==> !IsLineTerminator(s[k])
  }

  /** `/(?=.*[a-z])(?=.*[A-Z])(?=.*[0-9])(?=.*[^A-Za-z0-9])/`: some position from which
      all four kinds are ahead on the same line. */
  predicate HasAllKindsAhead(s: string)
  {
    exists at :: 0 <= at <= |s| &&
      AheadOnLine(s, at, IsLower) && AheadOnLine(s, at, IsUpper) &&
      AheadOnLine(s, at, IsDigit) && AheadOnLine(s, at, IsNonAlphanumeric)
  }

  /** `w` occurs in `s` at `i`, ignoring ASCII case. */
  predicate MatchesAt(s: string, i: int, w: string)
    requires 0 <= i && i + |w| <= |s|
  {
    forall k :: 0 <= k < |w| ==> Fold(s[i + k]) == Fold(w[k])
  }

  /** `/w/i`. */
  predicate ContainsIgnoringCase(s: string, w: string)
  {
    exists i :: 0 <= i && i + |w| <= |s| && MatchesAt(s, i, w)
  }

  /** `/(?:w1|w2|...)/i`. */
  predicate ContainsAnyIgnoringCase(s: string, words: seq<string>)
  {
    exists k :: 0 <= k < |words| && ContainsIgnoringCase(s, words[k])
  }

  const SequentialWords: seq<string> := [
    "abc", "bcd", "cde", "def", "efg", "fgh", "ghi", "hij", "ijk", "jkl", "klm", "lmn", "mno",
    "nop", "opq", "pqr", "qrs", "rst", "stu", "tuv", "uvw", "vwx", "wxy", "xyz",
    "123", "234", "345", "456", "567", "678", "789", "012",
    "987", "876", "765", "654", "543", "432", "321", "210"]

  const CommonWords: seq<string> := [
    "password", "passwd", "pass", "123456", "654321", "qwerty", "azerty", "admin", "login",
    "welcome", "letmein", "monkey", "dragon", "master", "shadow", "abc123", "123abc",
    "password123", "admin123", "root", "user", "guest", "test", "demo", "sample", "example",
    "default", "temp", "temporary"]

  const KeyboardWords: seq<string> := [
    "qwer", "wert", "erty", "rtyu", "tyui", "yuio", "uiop", "asdf", "sdfg", "dfgh", "fghj",
    "ghjk", "hjkl", "zxcv", "xcvb", "cvbn", "vbnm", "1234", "2345", "3456", "4567", "5678",
    "6789", "7890", "0987", "9876", "8765", "7654", "6543", "5432", "4321", "3210"]

  const PersonalWords: seq<string> := [
    "john", "jane", "mike", "sarah", "david", "maria", "alex", "chris", "admin", "user", "guest"]

  /** `n` digits from position `i`. */
  predicate DigitsAt(s: string, i: int, n: int)
  {
    0 <= i && 0 <= n && i + n <= |s| && forall k :: i <= k < i + n ==> IsDigit(s[k])
  }

  /** `n` ASCII letters, either case, from position `i`. */
  predicate LettersAt(s: string, i: int, n: int)
  {
    0 <= i && 0 <= n && i + n <= |s| && forall k :: i <= k < i + n ==> IsLetter(s[k])
  }

  /** `[-.\s]?` at `i`: `n` is 0, or 1 with a separator there. */
  predicate OptionalPhoneSeparator(s: string, i: int, n: int)
  {
    n == 0 || (n == 1 && 0 <= i < |s| && IsPhoneSeparator(s[i]))
  }

  /** A year `19\d{2}`, `20\d{2}` or `21\d{2}` at `i`. */
  predicate YearAt(s: string, i: int)
  {
    0 <= i && i + 4 <= |s| &&
    ((s[i] == '1' && s[i + 1] == '9') || (s[i] == '2' && (s[i + 1] == '0' || s[i + 1] == '1'))) &&
    IsDigit(s[i + 2]) && IsDigit(s[i + 3])
  }

  /** `[\/\-\.]\d{c}` right after the `b` digits at `j`. */
  predicate DateEndAt(s: string, j: int, b: int, c: int)
  {
    0 <= j + b < |s| && IsDateSeparator(s[j + b]) && DigitsAt(s, j + b + 1, c)
  }

  /** `\d{b}[\/\-\.]\d{2,4}` at `j`: the second and third numbers of a date. */
  predicate DateTailAt(s: string, j: int, b: int)
  {
    DigitsAt(s, j, b) && exists c :: 2 <= c <= 4 && DateEndAt(s, j, b, c)
  }

  /** `[\/\-\.]\d{b}[\/\-\.]\d{2,4}` right after the `a` digits at `i`. */
  predicate DateMiddleAt(s: string, i: int, a: int, b: int)
  {
    0 <= i + a < |s| && IsDateSeparator(s[i + a]) && DateTailAt(s, i + a + 1, b)
  }

  /** `\d{a}[\/\-\.]\d{1,2}[\/\-\.]\d{2,4}` at `i`. */
  predicate DateFrom(s: string, i: int, a: int)
  {
    DigitsAt(s, i, a) && exists b :: 1 <= b <= 2 && DateMiddleAt(s, i, a, b)
  }

  /** `/(?:19\d{2}|20\d{2}|21\d{2}|\d{1,2}[\/\-\.]\d{1,2}[\/\-\.]\d{2,4}|\d{8})/`. */
  predicate HasDate(s: string)
  {
    exists i :: 0 <= i <= |s| &&
      (YearAt(s, i) || (exists a :: 1 <= a <= 2 && DateFrom(s, i, a)) || DigitsAt(s, i, 8))
  }

  /** `[-.\s]?` of length `o` and `\d{4}` after the three digits at `j`. */
  predicate LocalEndAt(s: string, j: int, o: int)
  {
    OptionalPhoneSeparator(s, j + 3, o) && DigitsAt(s, j + 3 + o, 4)
  }

  /** `\d{3}[-.\s]?\d{4}` at `j`. */
  predicate LocalTailAt(s: string, j: int)
  {
    DigitsAt(s, j, 3) && exists o :: 0 <= o <= 1 && LocalEndAt(s, j, o)
  }

  /** `[-.\s]?` of length `o` and `\d{3}[-.\s]?\d{4}` after the three digits at `i`. */
  predicate LocalMiddleAt(s: string, i: int, o: int)
  {
    OptionalPhoneSeparator(s, i + 3, o) && LocalTailAt(s, i + 3 + o)
  }

  /** `\d{3}[-.\s]?\d{3}[-.\s]?\d{4}` at `i`. */
  predicate LocalNumberAt(s: string, i: int)
  {
    DigitsAt(s, i, 3) && exists o :: 0 <= o <= 1 && LocalMiddleAt(s, i, o)
  }

  /** `([-.\s]?\d{3,4}){n}` at `j`. */
  predicate PhoneGroupsAt(s: string, j: int, n: nat)
    decreases n
  {
    n == 0 ||
    exists o :: 0 <= o <= 1 && OptionalPhoneSeparator(s, j, o) && PhoneGroupAt(s, j + o, n)
  }

  /** `\d{3,4}([-.\s]?\d{3,4}){n - 1}` at `j`. */
  predicate PhoneGroupAt(s: string, j: int, n: nat)
    requires n > 0
    decreases n, 0
  {
    exists d :: 3 <= d <= 4 && DigitsAt(s, j, d) && PhoneGroupsAt(s, j + d, n - 1)
  }

  /** `\d{a}([-.\s]?\d{3,4}){3}` after the `+` at `i`. */
  predicate CountryCodeAt(s: string, i: int, a: int)
  {
    DigitsAt(s, i + 1, a) && PhoneGroupsAt(s, i + 1 + a, 3)
  }

  /** `\+\d{1,3}[-.\s]?\d{3,4}[-.\s]?\d{3,4}[-.\s]?\d{3,4}` at `i`. */
  predicate InternationalNumberAt(s: string, i: int)
  {
    0 <= i < |s| && s[i] == '+' && exists a :: 1 <= a <= 3 && CountryCodeAt(s, i, a)
  }

  /** `/(?:\d{10}|\d{3}[-.\s]?\d{3}[-.\s]?\d{4}|\+\d{1,3}...)/`. */
  predicate HasPhoneNumber(s: string)
  {
    exists i :: 0 <= i <= |s| && (DigitsAt(s, i, 10) || LocalNumberAt(s, i) || InternationalNumberAt(s, i))
  }

  /** A piece of `len` characters, no line terminator among them, at `i` and repeated
      twice right after it. */
  predicate RepeatedThriceAt(s: string, i: int, len: int)
  {
    0 <= i && 2 <= len && i + 3 * len <= |s| &&
    (forall k :: i <= k < i + len ==> !IsLineTerminator(s[k])) &&
    s[i + len..i + 2 * len] == s[i..i + len] && s[i + 2 * len..i + 3 * len] == s[i..i + len]
  }

  /** `/(.{2,})\1{2,}/`. */
  predicate HasRepetition(s: string)
  {
    exists i, len :: 0 <= i < |s| && 2 <= len <= |s| && RepeatedThriceAt(s, i, len)
  }

  /** `/^\d+$/`. */
  predicate OnlyDigits(s: string)
  {
    |s| > 0 && forall i :: 0 <= i < |s| ==> IsDigit(s[i])
  }

  /** `/^[a-zA-Z]+$/i`. */
  predicate OnlyLetters(s: string)
  {
    |s| > 0 && forall i :: 0 <= i < |s| ==> IsLetter(s[i])
  }

  /** `[a-z]\d{1,4}$` under `i`, the last digits starting at `j`. */
  predicate LetterThenFinalDigits(s: string, j: int)
  {
    1 <= j < |s| && |s| - j <= 4 && IsLetter(s[j - 1]) && DigitsAt(s, j, |s| - j)
  }

  /** `/(?:john|...|guest|[a-z]+\d{1,4}$|^\d{1,4}[a-z]+)/i`. */
  predicate HasPersonalInfo(s: string)
  {
    || ContainsAnyIgnoringCase(s, PersonalWords)
    || (exists j :: 1 <= j < |s| && LetterThenFinalDigits(s, j))
    || (exists n :: 1 <= n <= 4 && DigitsAt(s, 0, n) && n < |s| && IsLetter(s[n]))
  }

  // ---------------------------------------------------------------------------------
  // The score.

  /** The outcome of every test the scorer applies (lines 77-149). */
  datatype Matches = Matches(
    upper: bool, lower: bool, digit: bool, nonAlphanumeric: bool,
    special: bool, accented: bool,
    tripleRun: bool, doubleRun: bool, mixedCase: bool, endsWithDigits: bool, allKindsAhead: bool,
    sequential: bool, common: bool, keyboard: bool, date: bool, phone: bool, repetition: bool,
    sameCase: bool, onlyDigits: bool, onlyLetters: bool, personal: bool)

  /** The tests applied to a password; `sameCase` is
      `password === password.toLowerCase() || password === password.toUpperCase()`. */
  function MatchesOf(p: Platform, s: string): Matches
  {
    Matches(
      HasUpper(s), HasLower(s), HasDigit(s), HasNonAlphanumeric(s),
      HasSpecial(s), HasAccented(s),
      HasTripleRun(s), HasDoubleRun(s), HasMixedCase(s), EndsWithDigits(s), HasAllKindsAhead(s),
      ContainsAnyIgnoringCase(s, SequentialWords), ContainsAnyIgnoringCase(s, CommonWords),
      ContainsAnyIgnoringCase(s, KeyboardWords), HasDate(s), HasPhoneNumber(s), HasRepetition(s),
      s == p.toLowerCase(s) || s == p.toUpperCase(s), OnlyDigits(s), OnlyLetters(s), HasPersonalInfo(s))
  }

  /** `w` when the rule fires, 0 otherwise. */
  function Points(fires: bool, w: int): int
  {
    if fires then w else 0
  }

  /** The length bonus of lines 70-74: the first of the thresholds 20, 16, 12, 8 and 6
      the length reaches gives 5, 4, 3, 2 or 1. */
  function LengthBonus(n: nat): (r: nat)
    ensures r <= 5
    ensures r == 0 <==> n < 6
  {
    if n >= 20 then 5 else if n >= 16 then 4 else if n >= 12 then 3 else if n >= 8 then 2 else if n >= 6 then 1 else 0
  }

  /** The number of character kinds among lower case, upper case, digits, special
      symbols and accented letters (lines 102-108). */
  function CharacterKinds(m: Matches): (r: nat)
    ensures r <= 5
  {
    Points(m.lower, 1) + Points(m.upper, 1) + Points(m.digit, 1) + Points(m.special, 1) + Points(m.accented, 1)
  }

  /** The sum of all the bonuses. */
  const MaxBonus: int := 31

  /** The sum of all the penalties. */
  const MaxPenalty: int := 30

  /** Character variety, lines 77-80. */
  function VarietyBonus(m: Matches): int
  {
    Points(m.upper, 2) + Points(m.lower, 2) + Points(m.digit, 2) + Points(m.nonAlphanumeric, 2)
  }

  /** Advanced character and length checks, lines 83-86. */
  function AdvancedBonus(n: nat, m: Matches): int
  {
    Points(m.special, 2) + Points(m.accented, 1) + Points(n >= 24, 2) + Points(n >= 32, 2)
  }

  /** No repeated characters, lines 89-90. */
  function RepeatBonus(m: Matches): int
  {
    Points(!m.tripleRun, 2) + Points(!m.doubleRun, 1)
  }

  /** Mixing: case within words, digits not at the end, all four kinds ahead, and four
      character kinds, lines 93-109. */
  function MixingBonus(n: nat, m: Matches): int
  {
    Points(m.mixedCase && n >= 8, 2) + Points(m.digit && !m.endsWithDigits, 1)
    + Points(m.allKindsAhead, 3) + Points(CharacterKinds(m) >= 4, 2)
  }

  /** Every bonus that fires for a password of length `n`, lines 70-109. */
  function Bonus(n: nat, m: Matches): (r: int)
    ensures 0 <= r <= MaxBonus
  {
    LengthBonus(n) + VarietyBonus(m) + AdvancedBonus(n, m) + RepeatBonus(m) + MixingBonus(n, m)
  }

  /** The pattern penalties, lines 114-135. */
  function PatternPenalty(m: Matches): int
  {
    Points(m.sequential, 4) + Points(m.common, 6) + Points(m.keyboard, 4)
    + Points(m.date, 3) + Points(m.phone, 3) + Points(m.repetition, 3)
  }

  /** The penalties on passwords over six characters and on personal information,
      lines 138-149. */
  function ShapePenalty(n: nat, m: Matches): int
  {
    Points(m.sameCase && n > 6, 2) + Points((m.onlyDigits || m.onlyLetters) && n > 6, 3) + Points(m.personal, 2)
  }

  /** Every penalty that fires, lines 114-149. */
  function Penalty(n: nat, m: Matches): (r: int)
    ensures 0 <= r <= MaxPenalty
  {
    PatternPenalty(m) + ShapePenalty(n, m)
  }

  /** The score before clamping: the bonuses less the penalties, whatever order they are
      applied in. */
  function RawScore(n: nat, m: Matches): int
  {
    Bonus(n, m) - Penalty(n, m)
  }

  function Max(a: int, b: int): int
  {
    if a >= b then a else b
  }

  /** The score, lines 152-156: clamped at 0, less 5 (and clamped again) under six
      characters, and 0 under four. */
  function Score(n: nat, m: Matches): int
  {
    var clamped := Max(0, RawScore(n, m));
    var shortened := if n < 6 then Max(0, clamped - 5) else clamped;
    if n < 4 then 0 else shortened
  }

  /** The `switch (true)` of lines 159-178. */
  function LabelFor(score: int): string
  {
    if score == 0 then "VERY WEAK"
    else if score <= 3 then "WEAK"
    else if score <= 6 then "POOR"
    else if score <= 10 then "FAIR"
    else if score <= 14 then "MODERATE"
    else if score <= 18 then "GOOD"
    else if score <= 22 then "STRONG"
    else if score <= 26 then "VERY STRONG"
    else "EXCEPTIONAL"
  }

  function ColorFor(score: int): string
  {
    if score == 0 then "#8B0000"
    else if score <= 3 then "#FF073A"
    else if score <= 6 then "#FF4500"
    else if score <= 10 then "#FF8C00"
    else if score <= 14 then "#FFD700"
    else if score <= 18 then "#9ACD32"
    else if score <= 22 then "#39FF14"
    else if score <= 26 then "#00FF7F"
    else "#0AFFFF"
  }

  datatype Strength = Strength(score: int, color: string, labelText: string)

  /** Lines 70-74. */
  method AddLengthBonus(score: int, n: nat) returns (r: int)
    ensures r == score + LengthBonus(n)
  {
    r := score;
    if n >= 20 { r := r + 5; }
    else if n >= 16 { r := r + 4; }
    else if n >= 12 { r := r + 3; }
    else if n >= 8 { r := r + 2; }
    else if n >= 6 { r := r + 1; }
  }

  /** Lines 77-80. */
  method AddVarietyBonus(score: int, m: Matches) returns (r: int)
    ensures r == score + VarietyBonus(m)
  {
    r := score;
    if m.upper { r := r + 2; }
    if m.lower { r := r + 2; }
    if m.digit { r := r + 2; }
    if m.nonAlphanumeric { r := r + 2; }
  }

  /** Lines 83-86. */
  method AddAdvancedBonus(score: int, n: nat, m: Matches) returns (r: int)
    ensures r == score + AdvancedBonus(n, m)
  {
    r := score;
    if m.special { r := r + 2; }
    if m.accented { r := r + 1; }
    if n >= 24 { r := r + 2; }
    if n >= 32 { r := r + 2; }
  }

  /** Lines 89-90. */
  method AddRepeatBonus(score: int, m: Matches) returns (r: int)
    ensures r == score + RepeatBonus(m)
  {
    r := score;
    if !m.tripleRun { r := r + 2; }
    if !m.doubleRun { r := r + 1; }
  }

  /** Lines 93-109. */
  method AddMixingBonus(score: int, n: nat, m: Matches) returns (r: int)
    ensures r == score + MixingBonus(n, m)
  {
    r := score;
    if m.mixedCase && n >= 8 { r := r + 2; }
    if m.digit && !m.endsWithDigits { r := r + 1; }
    if m.allKindsAhead { r := r + 3; }
    var charTypes := 0;
    if m.lower { charTypes := charTypes + 1; }
    if m.upper { charTypes := charTypes + 1; }
    if m.digit { charTypes := charTypes + 1; }
    if m.special { charTypes := charTypes + 1; }
    if m.accented { charTypes := charTypes + 1; }
    assert charTypes == CharacterKinds(m);
    if charTypes >= 4 { r := r + 2; }
  }

  /** Lines 114-135. */
  method SubtractPatternPenalty(score: int, m: Matches) returns (r: int)
    ensures r == score - PatternPenalty(m)
  {
    r := score;
    if m.sequential { r := r - 4; }
    if m.common { r := r - 6; }
    if m.keyboard { r := r - 4; }
    if m.date { r := r - 3; }
    if m.phone { r := r - 3; }
    if m.repetition { r := r - 3; }
  }

  /** Lines 138-149. */
  method SubtractShapePenalty(score: int, n: nat, m: Matches) returns (r: int)
    ensures r == score - ShapePenalty(n, m)
  {
    r := score;
    if m.sameCase {
      if n > 6 { r := r - 2; }
    }
    if m.onlyDigits || m.onlyLetters {
      if n > 6 { r := r - 3; }
    }
    if m.personal { r := r - 2; }
  }

  /** Lines 67-156: the score accumulated one rule after the other, in the source's
      order, then clamped. */
  method AccumulateScore(n: nat, m: Matches) returns (score: int)
    ensures score == Score(n, m)
  {
    score := 0;
    score := AddLengthBonus(score, n);
    score := AddVarietyBonus(score, m);
    score := AddAdvancedBonus(score, n, m);
    score := AddRepeatBonus(score, m);
    score := AddMixingBonus(score, n, m);
    score := SubtractPatternPenalty(score, m);
    score := SubtractShapePenalty(score, n, m);
    assert score == RawScore(n, m);

    score := Max(0, score);
    if n < 6 { score := Max(0, score - 5); }
    if n < 4 { score := 0; }
  }

  /** The `switch (true)` of lines 159-178 as the source runs it. */
  method Rate(score: int) returns (r: Strength)
    ensures r == Strength(score, ColorFor(score), LabelFor(score))
  {
    if score == 0 {
      r := Strength(score, "#8B0000", "VERY WEAK");
    } else if score <= 3 {
      r := Strength(score, "#FF073A", "WEAK");
    } else if score <= 6 {
      r := Strength(score, "#FF4500", "POOR");
    } else if score <= 10 {
      r := Strength(score, "#FF8C00", "FAIR");
    } else if score <= 14 {
      r := Strength(score, "#FFD700", "MODERATE");
    } else if score <= 18 {
      r := Strength(score, "#9ACD32", "GOOD");
    } else if score <= 22 {
      r := Strength(score, "#39FF14", "STRONG");
    } else if score <= 26 {
      r := Strength(score, "#00FF7F", "VERY STRONG");
    } else {
      r := Strength(score, "#0AFFFF", "EXCEPTIONAL");
    }
  }

  /** `calculatePasswordStrength(password)`: the tests, the score, and the colour and
      label of the score's bucket. */
  method CalculatePasswordStrength(p: Platform, password: string) returns (r: Strength)
    ensures r.score == Score(|password|, MatchesOf(p, password))
    ensures r.color == ColorFor(r.score) && r.labelText == LabelFor(r.score)
  {
    var m := MatchesOf(p, password);
    var score := AccumulateScore(|password|, m);
    r := Rate(score);
  }

  // ---------------------------------------------------------------------------------
  // Properties.

  /** The bucket of a score: how many of the bounds 0, 3, 6, 10, 14, 18, 22 and 26 it
      exceeds. */
  function Bucket(score: int): (r: nat)
    ensures r < 9
  {
    Points(score > 0, 1) + Points(score > 3, 1) + Points(score > 6, 1) + Points(score > 10, 1) +
    Points(score > 14, 1) + Points(score > 18, 1) + Points(score > 22, 1) + Points(score > 26, 1)
  }

  /** The number of the thresholds 6, 8, 12, 16 and 20 a length reaches. */
  function ThresholdsReached(n: nat): (r: nat)
    ensures r <= 5
  {
    Points(n >= 6, 1) + Points(n >= 8, 1) + Points(n >= 12, 1) + Points(n >= 16, 1) + Points(n >= 20, 1)
  }

  /** The length bonus is the number of the thresholds the length reaches. */
  lemma LengthBonusCountsThresholds(n: nat)
    ensures LengthBonus(n) == ThresholdsReached(n)
  {
  }

  /** The length bonus grows with the length. */
  lemma LengthBonusMonotone(n: nat, k: nat)
    requires n <= k
    ensures LengthBonus(n) <= LengthBonus(k)
  {
  }

  const Labels: seq<string> := [
    "VERY WEAK", "WEAK", "POOR", "FAIR", "MODERATE", "GOOD", "STRONG", "VERY STRONG", "EXCEPTIONAL"]

  const Colors: seq<string> := [
    "#8B0000", "#FF073A", "#FF4500", "#FF8C00", "#FFD700", "#9ACD32", "#39FF14", "#00FF7F", "#0AFFFF"]

  /** The label and colour of a non-negative score are those of its bucket. */
  lemma LabelIsBucket(score: int)
    requires score >= 0
    ensures LabelFor(score) == Labels[Bucket(score)]
    ensures ColorFor(score) == Colors[Bucket(score)]
  {
  }

  /** A higher score never falls in a lower bucket. */
  lemma BucketMonotone(a: int, b: int)
    requires a <= b
    ensures Bucket(a) <= Bucket(b)
  {
  }

  /** The score lies between 0 and the sum of all the bonuses. */
  lemma ScoreRange(n: nat, m: Matches)
    ensures 0 <= Score(n, m) <= MaxBonus
  {
  }

  /** Under four characters the score is 0 and the label 'VERY WEAK'. */
  lemma VeryShortIsVeryWeak(n: nat, m: Matches)
    requires n < 4
    ensures Score(n, m) == 0 && LabelFor(Score(n, m)) == "VERY WEAK"
  {
  }

  /** With four or five characters the clamped score loses 5, down to 0; at most 15
      remains ('MODERATE'), since no length bonus can fire. */
  lemma ShortScore(n: nat, m: Matches)
    requires 4 <= n < 6
    ensures Score(n, m) == Max(0, Max(0, RawScore(n, m)) - 5)
    ensures Score(n, m) <= 15
  {
  }

  /** From six characters on the score is the raw score clamped at 0. */
  lemma LongScore(n: nat, m: Matches)
    requires n >= 6
    ensures Score(n, m) == Max(0, RawScore(n, m))
  {
  }

  /** The lookahead rule only fires with the four variety rules: from its position a
      lower-case letter, an upper-case one, a digit and another character all lie
      ahead. */
  lemma AllKindsImpliesVariety(s: string)
    requires HasAllKindsAhead(s)
    ensures HasLower(s) && HasUpper(s) && HasDigit(s) && HasNonAlphanumeric(s)
  {
    var at :| 0 <= at <= |s| &&
      AheadOnLine(s, at, IsLower) && AheadOnLine(s, at, IsUpper) &&
      AheadOnLine(s, at, IsDigit) && AheadOnLine(s, at, IsNonAlphanumeric);
    var a :| at <= a < |s| && IsLower(s[a]) && forall k :: at <= k < a ==> !IsLineTerminator(s[k]);
    var b :| at <= b < |s| && IsUpper(s[b]) && forall k :: at <= k < b ==> !IsLineTerminator(s[k]);
    var c :| at <= c < |s| && IsDigit(s[c]) && forall k :: at <= k < c ==> !IsLineTerminator(s[k]);
    var d :| at <= d < |s| && IsNonAlphanumeric(s[d]) && forall k :: at <= k < d ==> !IsLineTerminator(s[k]);
  }

  /** A special symbol is not a letter or a digit. */
  lemma SpecialImpliesNonAlphanumeric(s: string)
    requires HasSpecial(s)
    ensures HasNonAlphanumeric(s)
  {
    var i :| 0 <= i < |s| && IsSpecial(s[i]);
    assert IsNonAlphanumeric(s[i]);
  }
}
