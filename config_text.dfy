/**
 * The text handling the two configuration readers share: Java's
 * String.trim, the default StringTokenizer, Integer.parseInt on ASCII
 * digits, String.split on `*`, the extension-stripping getFileName, and the
 * errors a configuration line can be rejected with
 * (BadConfigurationLineException, one constructor per message).
 */
module ConfigText {
  import opened Wrappers

  /** Why a configuration line was rejected. */
  datatype LineError =
    | NoSingleImageFile           // 'o' without exactly one file
    | NoPatternOrCount            // 'n' with nothing after the command
    | NoImageCount                // 'n' or 's' with one token only
    | TooManySequenceOptions      // 'n' with more than two tokens
    | CountNotInteger             // the count is no Java int
    | CountNotPositive            // the count is <= 0
    | NoStarInPattern             // the pattern does not split into two parts
    | SequenceAlreadyDefined(name: string)
    | MissingSequenceImage(index: nat, name: string)
    | NoStripOrCount              // 's' with nothing after the command
    | TooManyStripOptions         // 's' with more than two tokens
    | StripUnreadable             // the strip file could not be read
    | NoGroupName                 // 'g' with nothing after the command
    | NoGroupImages               // 'g' with a group name only
    | UnknownImageCommand         // first character not o, n, s or g
    | KeyAlreadyExists(name: string)
    | NoSoundFile                 // a sound line without exactly one file
    | SoundUnreadable             // the sound file is missing or unreadable
    | UnknownSoundCommand         // first character not m or c
    | AudioLoadFailed             // the sound file's data is not supported
    | MidiUnavailable             // no MIDI sequencer could be obtained

  /**
   * How reading a configuration ends: every line processed, a line
   * rejected (1-based number, trimmed text, reason), or an exception the
   * reader does not catch escaping at a line.
   */
  datatype LoadResult =
    | Loaded
    | BadLine(lineNumber: nat, line: string, error: LineError)
    | Crashed(lineNumber: nat)

  /* ---------- characters ---------- */

  /** The characters String.trim removes: every code point up to U+0020. */
  predicate IsSpace(c: char) { c as int <= 32 }

  /** StringTokenizer's default delimiters: space, tab, newline, return, form feed. */
  predicate IsDelim(c: char) { c == ' ' || c == '\t' || c == '\n' || c == '\r' || c as int == 12 }

  /** Character.toLowerCase on ASCII letters; other characters are kept. */
  function ToLower(c: char): char
  {
    if 'A' <= c <= 'Z' then (c as int + 32) as char else c
  }

  predicate IsComment(line: string) { |line| >= 2 && line[..2] == "//" }

  /* ---------- String.trim ---------- */

  /** The first position at or after `st` that holds a character above space (String.trim's first loop). */
  function TrimFirst(s: string, st: nat): (r: nat)
    requires st <= |s|
    ensures st <= r <= |s|
    ensures r == |s| || !IsSpace(s[r])
    ensures forall k | st <= k < r :: IsSpace(s[k])
    decreases |s| - st
  {
    if st < |s| && IsSpace(s[st]) then TrimFirst(s, st + 1) else st
  }

  /** The end left when the trailing characters up to space after `st` are dropped (String.trim's second loop). */
  function TrimLast(s: string, st: nat, len: nat): (r: nat)
    requires st <= len <= |s|
    ensures st <= r <= len
    ensures r == st || !IsSpace(s[r - 1])
    ensures forall k | r <= k < len :: IsSpace(s[k])
    decreases len
  {
    if st < len && IsSpace(s[len - 1]) then TrimLast(s, st, len - 1) else len
  }

  /** String.trim: drops leading and trailing characters up to U+0020. */
  function Trim(s: string): (r: string)
    ensures r == [] || (!IsSpace(r[0]) && !IsSpace(r[|r| - 1]))
    ensures r == [] <==> forall k | 0 <= k < |s| :: IsSpace(s[k])
    ensures |r| <= |s|
  {
    var st := TrimFirst(s, 0);
    s[st..TrimLast(s, st, |s|)]
  }

  lemma {:induction false} TrimFirstPadded(s: string, st: nat, end: nat)
    requires st <= end <= |s|
    requires forall k | st <= k < end :: IsSpace(s[k])
    requires end == |s| || !IsSpace(s[end])
    ensures TrimFirst(s, st) == end
    decreases end - st
  {
    if st < end {
      TrimFirstPadded(s, st + 1, end);
    }
  }

  lemma {:induction false} TrimLastPadded(s: string, st: nat, end: nat, len: nat)
    requires st <= end <= len <= |s|
    requires forall k | end <= k < len :: IsSpace(s[k])
    requires end == st || !IsSpace(s[end - 1])
    ensures TrimLast(s, st, len) == end
    decreases len
  {
    if end < len {
      TrimLastPadded(s, st, end, len - 1);
    }
  }

  /**
   * Trim is exactly the removal of the padding: text that starts and ends
   * with a visible character comes back unchanged from any padding.
   */
  lemma TrimPadded(left: string, t: string, right: string)
    requires forall k | 0 <= k < |left| :: IsSpace(left[k])
    requires forall k | 0 <= k < |right| :: IsSpace(right[k])
    requires t == [] || (!IsSpace(t[0]) && !IsSpace(t[|t| - 1]))
    ensures Trim(left + t + right) == t
  {
    var s := left + t + right;
    if t == [] {
      assert forall k | 0 <= k < |s| :: IsSpace(s[k]) by {
        forall k | 0 <= k < |s| ensures IsSpace(s[k]) {
          if k < |left| { assert s[k] == left[k]; } else { assert s[k] == right[k - |left|]; }
        }
      }
    } else {
      TrimFirstPadded(s, 0, |left|);
      TrimLastPadded(s, |left|, |left| + |t|, |s|);
      assert s[|left|..|left| + |t|] == t;
    }
  }

  /* ---------- StringTokenizer ---------- */

  /** A token: non-empty and free of delimiters. */
  predicate IsWord(t: string)
  {
    t != [] && forall k | 0 <= k < |t| :: !IsDelim(t[k])
  }

  function DropDelims(s: string): (r: string)
    ensures |r| <= |s|
    ensures r == [] || !IsDelim(r[0])
  {
    if s != [] && IsDelim(s[0]) then DropDelims(s[1..]) else s
  }

  function TakeWord(s: string): (w: string)
    ensures |w| <= |s|
    ensures forall k | 0 <= k < |w| :: !IsDelim(w[k])
    ensures s != [] && !IsDelim(s[0]) ==> w != []
  {
    if s == [] || IsDelim(s[0]) then [] else [s[0]] + TakeWord(s[1..])
  }

  /** The tokens a StringTokenizer with the default delimiters returns, in order. */
  function Tokens(s: string): (ts: seq<string>)
    ensures forall i | 0 <= i < |ts| :: IsWord(ts[i])
    ensures s != [] && !IsDelim(s[0]) ==> ts != [] && ts[0] == TakeWord(s)
    decreases |s|
  {
    var t := DropDelims(s);
    if t == [] then []
    else
      var w := TakeWord(t);
      [w] + Tokens(t[|w|..])
  }

  /** Words joined by single spaces: the layout of a configuration line. */
  function Unwords(ws: seq<string>): string
  {
    if ws == [] then ""
    else if |ws| == 1 then ws[0]
    else ws[0] + " " + Unwords(ws[1..])
  }

  lemma {:induction false} TakeWordFront(w: string, rest: string)
    requires IsWord(w)
    requires rest == [] || IsDelim(rest[0])
    ensures TakeWord(w + rest) == w
    decreases |w|
  {
    if |w| > 1 {
      assert (w + rest)[1..] == w[1..] + rest;
      TakeWordFront(w[1..], rest);
      assert [w[0]] + w[1..] == w;
    } else {
      assert (w + rest)[1..] == rest;
      assert rest == [] || IsDelim(rest[0]);
      assert TakeWord(rest) == [];
    }
  }

  lemma TokensFront(w: string, rest: string)
    requires IsWord(w)
    requires rest == [] || IsDelim(rest[0])
    ensures Tokens(w + rest) == [w] + Tokens(rest)
  {
    var s := w + rest;
    assert DropDelims(s) == s;
    TakeWordFront(w, rest);
    assert s[|w|..] == rest;
  }

  lemma TokensAfterSpace(u: string)
    ensures Tokens(" " + u) == Tokens(u)
  {
    assert (" " + u)[1..] == u;
    assert DropDelims(" " + u) == DropDelims(u);
  }

  lemma UnwordsCons(ws: seq<string>)
    requires |ws| > 1
    ensures Unwords(ws) == ws[0] + (" " + Unwords(ws[1..]))
  {
  }

  lemma TokensCons(w: string, u: string, rest: seq<string>)
    requires IsWord(w) && Tokens(u) == rest
    ensures Tokens(w + (" " + u)) == [w] + rest
  {
    TokensFront(w, " " + u);
    TokensAfterSpace(u);
  }

  /** Tokenizing words laid out with single spaces gives the words back. */
  lemma {:induction false} TokensUnwords(ws: seq<string>)
    requires forall i | 0 <= i < |ws| :: IsWord(ws[i])
    ensures Tokens(Unwords(ws)) == ws
    decreases |ws|
  {
    if |ws| == 1 {
      TokensFront(ws[0], []);
      assert ws[0] + [] == ws[0];
    } else if |ws| > 1 {
      TokensUnwords(ws[1..]);
      UnwordsCons(ws);
      TokensCons(ws[0], Unwords(ws[1..]), ws[1..]);
      assert [ws[0]] + ws[1..] == ws;
    }
  }

  /* ---------- Integer.parseInt ---------- */

  const INT_MIN: int := -0x8000_0000
  const INT_MAX: int := 0x7fff_ffff

  predicate IsDigit(c: char) { '0' as int <= c as int <= '9' as int }

  predicate AllDigits(s: string) { forall k | 0 <= k < |s| :: IsDigit(s[k]) }

  /** The value of a string of ASCII digits, most significant first. */
  function DigitsValue(s: string): nat
    requires AllDigits(s)
  {
    if s == [] then 0 else DigitsValue(s[..|s| - 1]) * 10 + (s[|s| - 1] as int - '0' as int)
  }

  /** Integer.toString of a non-negative number: its decimal digits, no leading zero. */
  function NatToDecimal(n: nat): (s: string)
    ensures s != [] && AllDigits(s)
    ensures |s| > 1 ==> s[0] != '0'
  {
    var d := ((n % 10) + '0' as int) as char;
    if n < 10 then [d] else NatToDecimal(n / 10) + [d]
  }

  /** Reading the decimal digits back gives the number. */
  lemma {:induction false} DecimalValue(n: nat)
    ensures DigitsValue(NatToDecimal(n)) == n
  {
    var s := NatToDecimal(n);
    if n >= 10 {
      DecimalValue(n / 10);
      assert s[..|s| - 1] == NatToDecimal(n / 10);
    }
  }

  /** An optional sign followed by at least one ASCII digit. */
  predicate IsSignedDigits(s: string)
  {
    && s != []
    && if s[0] == '-' || s[0] == '+' then |s| > 1 && AllDigits(s[1..]) else AllDigits(s)
  }

  /** The number such a string denotes, whatever its size. */
  function SignedValue(s: string): int
    requires IsSignedDigits(s)
  {
    if s[0] == '-' then -(DigitsValue(s[1..]) as int)
    else if s[0] == '+' then DigitsValue(s[1..])
    else DigitsValue(s)
  }

  /** Integer.toString of an int. */
  function IntToDecimal(n: int): (s: string)
  {
    if n < 0 then "-" + NatToDecimal(-n) else NatToDecimal(n)
  }

  /**
   * Integer.parseInt in base 10 on ASCII digits: it accepts exactly an
   * optional sign and at least one digit denoting a value that fits a Java
   * int, and returns that value.
   */
  function ParseInt(s: string): (r: Option<int>)
    ensures r.Some? <==> IsSignedDigits(s) && INT_MIN <= SignedValue(s) <= INT_MAX
    ensures r.Some? ==> r.value == SignedValue(s)
  {
    if s == [] then None
    else
      var digits := if s[0] == '-' || s[0] == '+' then s[1..] else s;
      if digits == [] || !AllDigits(digits) then None
      else
        var magnitude: int := DigitsValue(digits);
        var v := if s[0] == '-' then -magnitude else magnitude;
        if INT_MIN <= v <= INT_MAX then Some(v) else None
  }

  /**
   * intFromCommandToken: a positive Java int, else the line is rejected.
   * Accepted tokens are exactly an optional `+` and decimal digits whose
   * value is positive and fits an int.
   */
  function IntFromCommandToken(token: string): (r: Result<int, LineError>)
    ensures r.Ok? ==> 0 < r.value <= INT_MAX
    ensures r.Ok? ==>
      && token != []
      && var digits := if token[0] == '+' then token[1..] else token;
         AllDigits(digits) && DigitsValue(digits) == r.value
    ensures r.Err? ==> r.error == CountNotInteger || r.error == CountNotPositive
  {
    match ParseInt(token)
    case None => Err(CountNotInteger)
    case Some(n) => if n <= 0 then Err(CountNotPositive) else Ok(n)
  }

  /** Every positive int, written in decimal, is accepted as that count. */
  lemma CountRoundTrip(n: int)
    requires 0 < n <= INT_MAX
    ensures IntFromCommandToken(NatToDecimal(n)) == Ok(n)
  {
    DecimalValue(n);
    var s := NatToDecimal(n);
    assert s[0] != '-' && s[0] != '+';
  }

  /** Every int written out by Integer.toString is read back as that int. */
  lemma ParseIntRoundTrip(n: int)
    requires INT_MIN <= n <= INT_MAX
    ensures ParseInt(IntToDecimal(n)) == Some(n)
  {
    var m: nat := if n < 0 then -n else n;
    DecimalValue(m);
    var s := IntToDecimal(n);
    if n < 0 {
      assert s[1..] == NatToDecimal(m);
    }
  }

  /** Zero and negative counts are refused as such, not as malformed. */
  lemma NonPositiveCountRejected(n: nat)
    requires n <= -INT_MIN
    ensures IntFromCommandToken("-" + NatToDecimal(n)) == Err(CountNotPositive)
    ensures IntFromCommandToken(NatToDecimal(0)) == Err(CountNotPositive)
  {
    DecimalValue(n);
    DecimalValue(0);
    assert ("-" + NatToDecimal(n))[1..] == NatToDecimal(n);
  }

  /* ---------- String.split on "*" ---------- */

  /** The character does not occur in the text. */
  predicate Lacks(t: string, c: char) { forall k | 0 <= k < |t| :: t[k] != c }

  /** String.indexOf's scan from position `from` on: the first position of `c` there, or -1. */
  function IndexOfCharFrom(s: string, c: char, from: nat): (i: int)
    requires from <= |s|
    ensures i == -1 || from <= i < |s|
    ensures i == -1 ==> forall k | from <= k < |s| :: s[k] != c
    ensures i >= 0 ==> s[i] == c && forall k | from <= k < i :: s[k] != c
    decreases |s| - from
  {
    if from == |s| then -1
    else if s[from] == c then from
    else IndexOfCharFrom(s, c, from + 1)
  }

  /** String.indexOf for one character: the first position of `c`, or -1. */
  function IndexOfChar(s: string, c: char): (i: int)
    ensures -1 <= i < |s|
    ensures i == -1 ==> Lacks(s, c)
    ensures i >= 0 ==> s[i] == c && Lacks(s[..i], c)
  {
    IndexOfCharFrom(s, c, 0)
  }

  /** The pieces between the `*`s, empty ones included: one more than there are stars. */
  function Fields(s: string): (fs: seq<string>)
    ensures |fs| >= 1
    decreases |s|
  {
    var i := IndexOfChar(s, '*');
    if i == -1 then [s] else [s[..i]] + Fields(s[i + 1..])
  }

  /** The pieces joined back with `*`. */
  function JoinStars(fs: seq<string>): string
    requires |fs| >= 1
  {
    if |fs| == 1 then fs[0] else fs[0] + ("*" + JoinStars(fs[1..]))
  }

  lemma JoinCons(x: string, fs: seq<string>)
    requires |fs| >= 1
    ensures JoinStars([x] + fs) == x + ("*" + JoinStars(fs))
  {
    assert ([x] + fs)[1..] == fs;
  }

  lemma FieldsAt(s: string, i: int)
    requires i == IndexOfChar(s, '*') && i != -1
    ensures Fields(s) == [s[..i]] + Fields(s[i + 1..])
  {
  }

  lemma SplitAt(s: string, i: int)
    requires 0 <= i < |s| && s[i] == '*'
    ensures s == s[..i] + ("*" + s[i + 1..])
  {
  }

  /** Splitting loses nothing: the pieces join back to the string. */
  lemma {:induction false} JoinFields(s: string)
    ensures JoinStars(Fields(s)) == s
    decreases |s|
  {
    var i := IndexOfChar(s, '*');
    if i != -1 {
      var rest := s[i + 1..];
      JoinFields(rest);
      FieldsAt(s, i);
      JoinCons(s[..i], Fields(rest));
      SplitAt(s, i);
    }
  }

  /** No piece contains a `*`. */
  lemma {:induction false} FieldsLackStar(s: string)
    ensures forall j | 0 <= j < |Fields(s)| :: Lacks(Fields(s)[j], '*')
    decreases |s|
  {
    var i := IndexOfChar(s, '*');
    if i != -1 {
      FieldsLackStar(s[i + 1..]);
      FieldsAt(s, i);
    }
  }

  function DropTrailingEmpty(fs: seq<string>): (r: seq<string>)
    ensures |r| <= |fs|
  {
    if fs != [] && fs[|fs| - 1] == [] then DropTrailingEmpty(fs[..|fs| - 1]) else fs
  }

  /**
   * String.split("\\*", 0): the pieces around each `*` with the trailing
   * empty ones removed; a string without `*` is its own single piece.
   */
  function SplitStar(s: string): seq<string>
  {
    if Lacks(s, '*') then [s] else DropTrailingEmpty(Fields(s))
  }

  /** The check on an 'n' pattern: exactly two pieces, neither empty. */
  function SplitPattern(pattern: string): Option<(string, string)>
  {
    var parts := SplitStar(pattern);
    if |parts| != 2 || parts[0] == [] || parts[1] == [] then None else Some((parts[0], parts[1]))
  }

  function Stars(k: nat): string
  {
    if k == 0 then "" else "*" + Stars(k - 1)
  }

  function Empties(k: nat): (r: seq<string>)
    ensures |r| == k
  {
    if k == 0 then [] else [[]] + Empties(k - 1)
  }

  lemma FieldsFront(a: string, rest: string)
    requires Lacks(a, '*')
    ensures Fields(a + ("*" + rest)) == [a] + Fields(rest)
  {
    var s := a + ("*" + rest);
    var i := IndexOfChar(s, '*');
    assert s[|a|] == '*';
    assert forall k | 0 <= k < |a| :: s[k] == a[k];
    assert i == |a|;
    assert s[..i] == a;
    assert s[i + 1..] == rest;
  }

  lemma FieldsWhole(a: string)
    requires Lacks(a, '*')
    ensures Fields(a) == [a]
  {
    assert IndexOfChar(a, '*') == -1;
  }

  lemma {:induction false} FieldsOfStars(k: nat)
    ensures Fields(Stars(k)) == Empties(k + 1)
  {
    if k > 0 {
      assert Stars(k) == [] + ("*" + Stars(k - 1));
      FieldsFront([], Stars(k - 1));
      FieldsOfStars(k - 1);
    } else {
      FieldsWhole([]);
    }
  }

  lemma {:induction false} EmptiesSnoc(k: nat)
    ensures Empties(k + 1) == Empties(k) + [[]]
  {
    if k > 0 {
      EmptiesSnoc(k - 1);
      assert [[]] + (Empties(k - 1) + [[]]) == ([[]] + Empties(k - 1)) + [[]];
    }
  }

  lemma {:induction false} DropEmpties(fs: seq<string>, k: nat)
    requires fs == [] || fs[|fs| - 1] != []
    ensures DropTrailingEmpty(fs + Empties(k)) == fs
  {
    if k == 0 {
      assert fs + Empties(0) == fs;
    } else {
      EmptiesSnoc(k - 1);
      assert fs + Empties(k) == (fs + Empties(k - 1)) + [[]];
      DropEmpties(fs, k - 1);
    }
  }

  lemma FieldsOfSuffix(suffix: string, k: nat)
    requires Lacks(suffix, '*')
    ensures Fields(suffix + Stars(k)) == [suffix] + Empties(k)
  {
    if k == 0 {
      assert suffix + Stars(0) == suffix;
      FieldsWhole(suffix);
    } else {
      var rest := Stars(k - 1);
      calc {
        Fields(suffix + Stars(k));
        { assert Stars(k) == "*" + rest; }
        Fields(suffix + ("*" + rest));
        { FieldsFront(suffix, rest); }
        [suffix] + Fields(rest);
        { FieldsOfStars(k - 1); }
        [suffix] + Empties(k);
      }
    }
  }

  /** The pattern of a numbered sequence: prefix, `*`, suffix, then `k` more `*`s. */
  function Pattern(prefix: string, suffix: string, k: nat): string
  {
    prefix + ("*" + (suffix + Stars(k)))
  }

  /**
   * A pattern written as prefix, `*`, suffix and any number of trailing
   * `*`s passes the check and gives back its prefix and suffix.
   */
  lemma PatternAccepted(prefix: string, suffix: string, k: nat)
    requires prefix != [] && suffix != [] && Lacks(prefix, '*') && Lacks(suffix, '*')
    ensures SplitPattern(Pattern(prefix, suffix, k)) == Some((prefix, suffix))
  {
    var p := Pattern(prefix, suffix, k);
    assert p[|prefix|] == '*';
    FieldsFront(prefix, suffix + Stars(k));
    FieldsOfSuffix(suffix, k);
    assert Fields(p) == [prefix, suffix] + Empties(k);
    DropEmpties([prefix, suffix], k);
  }

  lemma {:induction false} JoinEmpties(k: nat)
    requires k >= 1
    ensures JoinStars(Empties(k)) == Stars(k - 1)
  {
    if k > 1 {
      JoinEmpties(k - 1);
      JoinCons([], Empties(k - 1));
      assert [] + ("*" + Stars(k - 2)) == Stars(k - 1);
    }
  }

  lemma JoinPieces(prefix: string, suffix: string, k: nat)
    ensures JoinStars([prefix, suffix] + Empties(k)) == Pattern(prefix, suffix, k)
  {
    assert [prefix, suffix] + Empties(k) == [prefix] + ([suffix] + Empties(k));
    JoinCons(prefix, [suffix] + Empties(k));
    if k == 0 {
      assert [suffix] + Empties(0) == [suffix];
      assert suffix + Stars(0) == suffix;
    } else {
      JoinCons(suffix, Empties(k));
      JoinEmpties(k);
    }
  }

  /** How many empty pieces DropTrailingEmpty removes. */
  function TrailingEmpties(fs: seq<string>): nat
  {
    if fs != [] && fs[|fs| - 1] == [] then TrailingEmpties(fs[..|fs| - 1]) + 1 else 0
  }

  lemma {:induction false} UndropEmpties(fs: seq<string>)
    ensures fs == DropTrailingEmpty(fs) + Empties(TrailingEmpties(fs))
    decreases |fs|
  {
    if fs != [] && fs[|fs| - 1] == [] {
      var init := fs[..|fs| - 1];
      UndropEmpties(init);
      var k := TrailingEmpties(init);
      EmptiesSnoc(k);
      assert fs == init + [[]];
    } else {
      assert fs == fs + Empties(0);
    }
  }

  /**
   * Conversely, every accepted pattern is its prefix, `*`, its suffix and
   * trailing `*`s only, the prefix and suffix being non-empty and star-free.
   */
  lemma PatternShape(pattern: string)
    requires SplitPattern(pattern).Some?
    ensures
      var (prefix, suffix) := SplitPattern(pattern).value;
      && prefix != [] && suffix != [] && Lacks(prefix, '*') && Lacks(suffix, '*')
      && exists k: nat :: pattern == Pattern(prefix, suffix, k)
  {
    var (prefix, suffix) := SplitPattern(pattern).value;
    assert Lacks(pattern, '*') ==> |SplitStar(pattern)| == 1;
    var fs := Fields(pattern);
    assert DropTrailingEmpty(fs) == [prefix, suffix];
    UndropEmpties(fs);
    var k := TrailingEmpties(fs);
    FieldsLackStar(pattern);
    assert fs[0] == prefix && fs[1] == suffix;
    JoinFields(pattern);
    JoinPieces(prefix, suffix, k);
  }

  /* ---------- file names ---------- */

  /** String.lastIndexOf for one character: the last position of `c`, or -1. */
  function LastIndexOf(s: string, c: char): (i: int)
    ensures -1 <= i < |s|
  {
    if s == [] then -1
    else if s[|s| - 1] == c then |s| - 1
    else LastIndexOf(s[..|s| - 1], c)
  }

  /** -1 when `c` does not occur; otherwise a position of `c` with no `c` after it. */
  lemma {:induction false} LastIndexOfSpec(s: string, c: char)
    ensures LastIndexOf(s, c) == -1 ==> Lacks(s, c)
    ensures LastIndexOf(s, c) >= 0 ==> s[LastIndexOf(s, c)] == c && Lacks(s[LastIndexOf(s, c) + 1..], c)
    decreases |s|
  {
    if s != [] && s[|s| - 1] != c {
      var init := s[..|s| - 1];
      LastIndexOfSpec(init, c);
      var i := LastIndexOf(init, c);
      assert LastIndexOf(s, c) == i;
      forall j | i < j < |s|
        ensures s[j] != c
      {
        if j < |s| - 1 {
          assert s[j] == init[j];
          if i >= 0 {
            assert init[j] == init[i + 1..][j - i - 1];
          }
        }
      }
    }
  }

  /** File.getName: the last component of a path. */
  function BaseName(path: string): (r: string)
    ensures |r| <= |path|
  {
    var i := LastIndexOf(path, '/');
    if i < 0 then path else path[i + 1..]
  }

  /** The last component has no `/`, ends the path, and is preceded by a `/` when it is not the whole path. */
  lemma BaseNameSpec(path: string)
    ensures var r := BaseName(path);
      && Lacks(r, '/')
      && r == path[|path| - |r|..]
      && (|r| < |path| ==> path[|path| - |r| - 1] == '/')
  {
    LastIndexOfSpec(path, '/');
  }

  /**
   * getFileName: the name before its last `.`, when that `.` is neither the
   * first nor the last character; otherwise the empty string.
   */
  function GetFileName(name: string): (r: string)
    ensures |r| <= |name|
  {
    var i := LastIndexOf(name, '.');
    if 0 < i <= |name| - 2 then name[..i] else ""
  }

  /** A name that comes back is a proper prefix, followed by the last `.` with something after it. */
  lemma GetFileNameSpec(name: string)
    ensures var r := GetFileName(name);
      r != [] ==>
        && |r| <= |name| - 2 && r == name[..|r|]
        && name[|r|] == '.' && Lacks(name[|r| + 1..], '.')
  {
    LastIndexOfSpec(name, '.');
  }

  /** No name comes back only when no `.` other than the first or last character is the last `.`. */
  lemma FileNameEmpty(name: string, k: int)
    requires GetFileName(name) == []
    requires 0 < k <= |name| - 2 && name[k] == '.'
    ensures !Lacks(name[k + 1..], '.')
  {
    LastIndexOfSpec(name, '.');
    var i := LastIndexOf(name, '.');
    assert i >= k;
    assert name[k + 1..][i - k - 1] == '.';
  }

  lemma {:induction false} LastIndexOfAppend(t: string, u: string, c: char)
    requires Lacks(u, c)
    ensures LastIndexOf(t + u, c) == LastIndexOf(t, c)
    decreases |u|
  {
    if u != [] {
      var s := t + u;
      assert s[..|s| - 1] == t + u[..|u| - 1];
      LastIndexOfAppend(t, u[..|u| - 1], c);
    } else {
      assert t + u == t;
    }
  }

  /** Stem and extension: the stem comes back. */
  lemma FileNameOfStem(stem: string, ext: string)
    requires stem != [] && ext != [] && Lacks(ext, '.')
    ensures GetFileName(stem + "." + ext) == stem
  {
    var name := stem + "." + ext;
    LastIndexOfAppend(stem + ".", ext, '.');
    assert name[..|stem|] == stem;
  }

  /** No stem before the dot, nothing after it, or no dot at all: no name. */
  lemma NoFileName(s: string)
    requires Lacks(s, '.')
    ensures GetFileName("." + s) == ""
    ensures GetFileName(s + ".") == ""
    ensures GetFileName(s) == ""
  {
    LastIndexOfAppend(".", s, '.');
    LastIndexOfAppend([], s, '.');
    assert [] + s == s;
  }

  /* ---------- configuration lines and files ---------- */

  /** The words after the command word. */
  function Arguments(line: string): seq<string>
  {
    var ts := Tokens(line);
    if ts == [] then [] else ts[1..]
  }

  /**
   * How processing one line ends: it passes, it is rejected with a reason
   * (BadConfigurationLineException), or an unchecked exception escapes.
   */
  datatype LineOutcome = Done | Rejected(error: LineError) | Threw

  /** Every line of a configuration, trimmed. */
  function TrimAll(lines: seq<string>): (r: seq<string>)
    ensures |r| == |lines|
  {
    seq(|lines|, i requires 0 <= i < |lines| => Trim(lines[i]))
  }

  /** new File(parent, child), the parent being the configuration file's directory. */
  function Resolve(dir: Option<string>, name: string): string
  {
    match dir
    case None => name
    case Some(d) => d + ("/" + name)
  }

  /** getFileName(File) of both loaders: the name a file is registered under. */
  function FileIndex(path: string): string
  {
    GetFileName(BaseName(path))
  }

  /** A file named without `/` keeps its own name under any directory. */
  lemma ResolvedName(dir: Option<string>, name: string)
    requires Lacks(name, '/')
    ensures BaseName(Resolve(dir, name)) == name
  {
    match dir
    case None =>
      LastIndexOfAppend([], name, '/');
      assert [] + name == name;
    case Some(d) =>
      LastIndexOfAppend(d + "/", name, '/');
      assert d + ("/" + name) == (d + "/") + name;
  }

  /** So a file given as STEM.EXT in a configuration line is registered as STEM. */
  lemma SingleIndex(dir: Option<string>, stem: string, ext: string)
    requires stem != [] && ext != [] && Lacks(ext, '.')
    requires Lacks(stem, '/') && Lacks(ext, '/')
    ensures FileIndex(Resolve(dir, stem + "." + ext)) == stem
  {
    var name := stem + "." + ext;
    assert Lacks(name, '/') by {
      forall k | 0 <= k < |name| ensures name[k] != '/' {
        if k < |stem| { assert name[k] == stem[k]; }
        else if k > |stem| { assert name[k] == ext[k - |stem| - 1]; }
      }
    }
    ResolvedName(dir, name);
    FileNameOfStem(stem, ext);
  }
}
