// The engine options configure() reads from a line of `key=value` words:
// d (depth, or a time when negative), e (evaluation mode), n (nodes),
// s (search mode) and t (time).

module Options {
  import opened Tables
  import opened Fen

  /** The search settings configure() writes. */
  datatype Settings = Settings(evalMode: int, maxDepth: int, maxNodes: int, maxTime: int, searchMode: int)

  const MAX_NODES := 1000000000

  // ------------------------------------------------------------------ words

  /** The characters the tokenising expression `\s+` treats as separators. */
  predicate IsSpace(c: char)
  {
    c == ' ' || c == '\t' || c == '\n' || c == '\r' || c == '\U{B}' || c == '\U{C}'
  }

  /** The length of the word starting at k: the run of non-separators. */
  function WordEnd(s: string, k: nat): (e: nat)
    requires k <= |s|
    ensures k <= e <= |s| && (e < |s| ==> IsSpace(s[e]))
    ensures forall j | k <= j < e :: !IsSpace(s[j])
    decreases |s| - k
  {
    if k == |s| || IsSpace(s[k]) then k else WordEnd(s, k + 1)
  }

  /** The words of s from k on: the maximal runs of non-separators, in order.
      (The empty pieces the tokenizer yields around separator runs are all
      shorter than three characters, so configure() skips them.) */
  function WordsFrom(s: string, k: nat): (ws: seq<string>)
    requires k <= |s|
    ensures forall w | w in ws :: w != "" && forall j | 0 <= j < |w| :: !IsSpace(w[j])
    decreases |s| - k
  {
    if k == |s| then []
    else if IsSpace(s[k]) then WordsFrom(s, k + 1)
    else
      var e := WordEnd(s, k);
      [s[k..e]] + (if e == |s| then [] else WordsFrom(s, e))
  }

  function Words(s: string): seq<string>
  {
    WordsFrom(s, 0)
  }

  /** The words joined by single spaces. */
  function Join(ws: seq<string>): string
  {
    if ws == [] then "" else if |ws| == 1 then ws[0] else ws[0] + " " + Join(ws[1..])
  }

  predicate IsWord(w: string)
  {
    w != "" && forall j | 0 <= j < |w| :: !IsSpace(w[j])
  }

  /** The word at the start of a text is read up to the first separator. */
  lemma {:induction false} WordEndOf(w: string, rest: string, k: nat)
    requires IsWord(w) && k <= |w| && (rest == [] || IsSpace(rest[0]))
    ensures WordEnd(w + rest, k) == |w|
    decreases |w| - k
  {
    if k < |w| {
      WordEndOf(w, rest, k + 1);
    }
  }

  /** Splitting the words joined by spaces gives back the words. */
  lemma {:induction false} WordsOfJoin(ws: seq<string>)
    requires forall i | 0 <= i < |ws| :: IsWord(ws[i])
    ensures Words(Join(ws)) == ws
  {
    if ws != [] {
      var w := ws[0];
      if |ws| == 1 {
        WordEndOf(w, "", 0);
        assert w + "" == w;
      } else {
        var rest := " " + Join(ws[1..]);
        assert Join(ws) == w + rest;
        WordEndOf(w, rest, 0);
        WordsOfJoin(ws[1..]);
        WordsAfterSpace(Join(ws[1..]), w);
      }
    }
  }

  /** The words after a word and one space are the words of the rest. */
  lemma WordsAfterSpace(t: string, w: string)
    requires IsWord(w)
    ensures WordsFrom(w + " " + t, |w|) == Words(t)
  {
    var s := w + " " + t;
    assert s[|w|] == ' ';
    SkipPrefix(s, |w| + 1, t);
  }

  /** The words from index k of s are those of the suffix s[k..]. */
  lemma {:induction false} SkipPrefix(s: string, k: nat, t: string)
    requires k <= |s| && s[k..] == t
    ensures WordsFrom(s, k) == WordsFrom(t, 0)
    decreases |s| - k
  {
    if k < |s| {
      assert t[0] == s[k];
      if IsSpace(s[k]) {
        SkipPrefix(s, k + 1, t[1..]);
        SkipPrefixTail(t);
        SkipPrefix(t, 1, t[1..]);
      } else {
        var e := WordEnd(s, k);
        WordEndShift(s, k, t, k);
        assert s[k..e] == t[0..e - k];
        if e < |s| {
          SkipPrefix(s, e, t[e - k..]);
          SkipPrefix(t, e - k, t[e - k..]);
        }
      }
    } else {
      assert t == [];
    }
  }

  lemma SkipPrefixTail(t: string)
    requires t != [] && IsSpace(t[0])
    ensures WordsFrom(t, 0) == WordsFrom(t, 1)
  {
  }

  /** WordEnd measured in a suffix is shifted by the suffix offset. */
  lemma {:induction false} WordEndShift(s: string, k: nat, t: string, j: nat)
    requires k <= j <= |s| && s[k..] == t
    ensures WordEnd(s, j) == WordEnd(t, j - k) + k
    decreases |s| - j
  {
    if j < |s| {
      assert t[j - k] == s[j];
      if !IsSpace(s[j]) {
        WordEndShift(s, k, t, j + 1);
      }
    }
  }

  // ------------------------------------------------------------------ atoi

  predicate IsDigit(c: char) { '0' <= c <= '9' }

  /** The value of the leading digits of s[k..], accumulated onto acc. */
  function LeadingDigits(s: string, k: nat, acc: int): int
    requires k <= |s|
    decreases |s| - k
  {
    if k == |s| || !IsDigit(s[k]) then acc else LeadingDigits(s, k + 1, acc * 10 + Digit(s[k]))
  }

  /** std::atoi on a word (which holds no leading white space): an optional
      sign, then the leading digits; 0 when there are none. */
  function Atoi(s: string): int
  {
    if s != [] && (s[0] == '-' || s[0] == '+') then
      var v := LeadingDigits(s, 1, 0);
      if s[0] == '-' then -v else v
    else LeadingDigits(s, 0, 0)
  }

  /** The leading digits of a text made only of digits are DigitsValue. */
  lemma {:induction false} LeadingDigitsAll(s: string, k: nat, acc: int)
    requires k <= |s| && forall j | k <= j < |s| :: IsDigit(s[j])
    ensures LeadingDigits(s, k, acc) == DigitsValue(s[k..], acc)
    decreases |s| - k
  {
    if k < |s| {
      assert s[k..][1..] == s[k + 1..];
      LeadingDigitsAll(s, k + 1, acc * 10 + Digit(s[k]));
    }
  }

  /** std::atoi reads back what std::to_string writes. */
  lemma AtoiRoundTrip(n: int)
    ensures Atoi(IntText(n)) == n
  {
    if n < 0 {
      var t := NatText(-n);
      var s := "-" + t;
      assert s[1..] == t;
      forall j | 1 <= j < |s| ensures IsDigit(s[j]) {
        assert s[j] == t[j - 1];
      }
      LeadingDigitsAll(s, 1, 0);
      NatTextRoundTrip(-n);
    } else {
      var t := NatText(n);
      assert t[0..] == t;
      LeadingDigitsAll(t, 0, 0);
      NatTextRoundTrip(n);
    }
  }

  // ---------------------------------------------------------------- options

  /** The settings configure() starts from before it reads the words. */
  function Defaults(s: Settings, depth: int): Settings
  {
    Settings(1, if depth >= 0 then depth else s.maxDepth, MAX_NODES, 0, 0)
  }

  /** One word: at least three characters with '=' second; the key is the first
      character, the value the rest. Unknown keys, and unknown mode names, change nothing. */
  function ApplyWord(s: Settings, w: string): (r: Settings)
    ensures |w| < 3 || w[1] != '=' ==> r == s
  {
    if |w| < 3 || w[1] != '=' then s
    else
      var right := w[2..];
      var value := Atoi(right);
      match w[0]
      case 'd' => if value >= 0 then s.(maxDepth := value) else s.(maxTime := -value)
      case 'e' => if right in EVAL_MODES then s.(evalMode := EVAL_MODES[right]) else s
      case 'n' => s.(maxNodes := value)
      case 's' => if right in SEARCH_MODES then s.(searchMode := SEARCH_MODES[right]) else s
      case 't' => s.(maxTime := value)
      case _ => s
  }

  function ApplyWords(s: Settings, ws: seq<string>): Settings
    decreases |ws|
  {
    if ws == [] then s else ApplyWords(ApplyWord(s, ws[0]), ws[1..])
  }

  /** configure(frc, options, depth) on the settings. */
  function ConfigureSpec(s: Settings, options: string, depth: int): Settings
  {
    ApplyWords(Defaults(s, depth), Words(options))
  }

  /** Words are applied left to right: later words override earlier ones. */
  lemma {:induction false} ApplyWordsAppend(s: Settings, a: seq<string>, b: seq<string>)
    ensures ApplyWords(s, a + b) == ApplyWords(ApplyWords(s, a), b)
    decreases |a|
  {
    if a != [] {
      assert (a + b)[1..] == a[1..] + b;
      ApplyWordsAppend(ApplyWord(s, a[0]), a[1..], b);
    } else {
      assert a + b == b;
    }
  }

  /** Without words the settings are the defaults: material evaluation, the depth
      given (when not negative), a billion nodes, no time limit, search mode 0. */
  lemma ConfigureDefaults(s: Settings, options: string, depth: int)
    requires forall j | 0 <= j < |options| :: IsSpace(options[j])
    ensures ConfigureSpec(s, options, depth) == Settings(1, if depth >= 0 then depth else s.maxDepth, MAX_NODES, 0, 0)
  {
    NoWords(options, 0);
  }

  lemma {:induction false} NoWords(s: string, k: nat)
    requires k <= |s| && forall j | k <= j < |s| :: IsSpace(s[j])
    ensures WordsFrom(s, k) == []
    decreases |s| - k
  {
    if k < |s| {
      NoWords(s, k + 1);
    }
  }

  /** Each key sets only its own setting, with the value read by atoi. */
  lemma WordEffects(s: Settings, key: char, n: int)
    ensures var w := [key, '='] + IntText(n);
      var r := ApplyWord(s, w);
      (key == 'd' && n >= 0 ==> r == s.(maxDepth := n)) &&
      (key == 'd' && n < 0 ==> r == s.(maxTime := -n)) &&
      (key == 'n' ==> r == s.(maxNodes := n)) &&
      (key == 't' ==> r == s.(maxTime := n)) &&
      (key !in "dnest" ==> r == s)
  {
    var w := [key, '='] + IntText(n);
    assert w[2..] == IntText(n);
    AtoiRoundTrip(n);
  }

  /** A mode name selects its mode; any other name keeps the current one. */
  lemma ModeWords(s: Settings, name: string)
    requires name != ""
    ensures var r := ApplyWord(s, "e=" + name);
      r == (if name in EVAL_MODES then s.(evalMode := EVAL_MODES[name]) else s)
    ensures var r := ApplyWord(s, "s=" + name);
      r == (if name in SEARCH_MODES then s.(searchMode := SEARCH_MODES[name]) else s)
  {
    assert ("e=" + name)[2..] == name;
    assert ("s=" + name)[2..] == name;
  }
}
