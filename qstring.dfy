/** The few QString and QChar operations the layout parser relies on, stated over
    `seq<char>`: character classes, `indexOf`, `lastIndexOf`, `replace`,
    `simplified` and `split`. */
module QtString {

  /** QChar::isDigit, restricted to the ASCII digits. */
  predicate IsDigit(c: char) { '0' <= c <= '9' }

  /** QChar::isLetter, restricted to the ASCII letters. */
  predicate IsLetter(c: char) { 'a' <= c <= 'z' || 'A' <= c <= 'Z' }

  predicate IsLetterOrDigit(c: char) { IsLetter(c) || IsDigit(c) }

  /** QChar::isSpace on the Latin-1 range: tab, line feed, vertical tab, form feed,
      carriage return, space, next line and no-break space. */
  predicate IsSpace(c: char) {
    c == ' ' || '\t' <= c <= '\r' || c == '\U{0085}' || c == '\U{00A0}'
  }

  predicate IsNonSpace(c: char) { !IsSpace(c) }

  predicate NoSpace(w: string) { forall k :: 0 <= k < |w| ==> !IsSpace(w[k]) }

  predicate StartsWith(s: string, c: char) { |s| > 0 && s[0] == c }

  predicate EndsWith(s: string, c: char) { |s| > 0 && s[|s| - 1] == c }

  /** The end of the maximal run of characters satisfying `p` that starts at `i`:
      the scan `for (; end < s.length(); end++) if (!p(s[end])) break;`. */
  function RunEnd(s: string, i: nat, p: char -> bool): (e: nat)
    requires i <= |s|
    ensures i <= e <= |s|
    ensures forall k :: i <= k < e ==> p(s[k])
    ensures e == |s| || !p(s[e])
    decreases |s| - i
  {
    if i == |s| || !p(s[i]) then i else RunEnd(s, i + 1, p)
  }

  /** The run end is the only index with those properties: a scan loop that stops
      at it computes RunEnd. */
  lemma RunEndUnique(s: string, i: nat, p: char -> bool, e: nat)
    requires i <= e <= |s|
    requires forall k :: i <= k < e ==> p(s[k])
    requires e == |s| || !p(s[e])
    ensures e == RunEnd(s, i, p)
  {
  }

  /** QString::indexOf(c, from): the first index at or after `from` holding `c`, or -1. */
  function IndexOf(s: string, c: char, from: nat): (r: int)
    ensures -1 <= r < |s|
    ensures r >= 0 ==> from <= r && s[r] == c && forall k :: from <= k < r ==> s[k] != c
    ensures r == -1 ==> forall k :: from <= k < |s| ==> s[k] != c
    decreases |s| - from
  {
    if from >= |s| then -1 else if s[from] == c then from else IndexOf(s, c, from + 1)
  }

  /** QString::lastIndexOf(c): the last index holding `c`, or -1. */
  function LastIndexOf(s: string, c: char): (r: int)
    ensures -1 <= r < |s|
    ensures r >= 0 ==> s[r] == c && forall k :: r < k < |s| ==> s[k] != c
    ensures r == -1 ==> forall k :: 0 <= k < |s| ==> s[k] != c
  {
    LastIndexBefore(s, c, |s|)
  }

  /** The last index below `n` holding `c`, or -1: the backward scan of lastIndexOf. */
  function LastIndexBefore(s: string, c: char, n: nat): (r: int)
    requires n <= |s|
    ensures -1 <= r < n
    ensures r >= 0 ==> s[r] == c && forall k :: r < k < n ==> s[k] != c
    ensures r == -1 ==> forall k :: 0 <= k < n ==> s[k] != c
  {
    if n == 0 then -1 else if s[n - 1] == c then n - 1 else LastIndexBefore(s, c, n - 1)
  }

  /** The last occurrence is the only index with those properties. */
  lemma LastIndexOfUnique(s: string, c: char, r: int)
    requires -1 <= r < |s|
    requires r >= 0 ==> s[r] == c
    requires forall k :: r < k < |s| ==> s[k] != c
    ensures LastIndexOf(s, c) == r
  {
  }

  /** QString::replace(a, b) for single characters. */
  function Replace(s: string, a: char, b: char): (r: string)
    ensures |r| == |s|
    ensures forall k :: 0 <= k < |s| ==> r[k] == if s[k] == a then b else s[k]
  {
    seq(|s|, k requires 0 <= k < |s| => if s[k] == a then b else s[k])
  }

  /** The parts joined with `sep` between consecutive parts (QStringList::join). */
  function JoinWith(parts: seq<string>, sep: char): string
  {
    if parts == [] then []
    else if |parts| == 1 then parts[0]
    else parts[0] + [sep] + JoinWith(parts[1..], sep)
  }

  /** The maximal runs of non-whitespace characters of `s`, in order. */
  function Words(s: string): (ws: seq<string>)
    ensures forall w :: w in ws ==> w != [] && NoSpace(w)
    decreases |s|
  {
    if s == [] then []
    else if IsSpace(s[0]) then Words(s[1..])
    else
      var e := RunEnd(s, 0, IsNonSpace);
      [s[..e]] + Words(s[e..])
  }

  /** QString::simplified: whitespace removed from both ends and every inner run of
      whitespace replaced by one space, that is, the words joined by single spaces. */
  function Simplified(s: string): string
  {
    JoinWith(Words(s), ' ')
  }

  /** QString::split(sep) keeping empty parts: the text between consecutive
      separators, so a string with n separators has n + 1 parts. */
  function Split(s: string, sep: char): (parts: seq<string>)
    ensures |parts| >= 1
    ensures forall p :: p in parts ==> sep !in p
    ensures JoinWith(parts, sep) == s
    decreases |s|
  {
    var i := IndexOf(s, sep, 0);
    if i < 0 then [s]
    else
      var rest := Split(s[i + 1..], sep);
      assert s == s[..i] + [sep] + s[i + 1..];
      assert ([s[..i]] + rest)[1..] == rest;
      [s[..i]] + rest
  }

  /** A string as QString::simplified leaves it: the only whitespace is single
      spaces between non-blank characters. */
  predicate IsSimplified(t: string) {
    forall k :: 0 <= k < |t| && IsSpace(t[k]) ==>
      t[k] == ' ' && 0 < k < |t| - 1 && IsNonSpace(t[k - 1]) && IsNonSpace(t[k + 1])
  }

  lemma {:induction false} JoinCons(w: string, rest: seq<string>, sep: char)
    requires rest != []
    ensures JoinWith([w] + rest, sep) == w + [sep] + JoinWith(rest, sep)
  {
    assert ([w] + rest)[1..] == rest;
  }

  /** Splitting the words joined by single spaces gives back the words. */
  lemma {:induction false} WordsOfJoin(ws: seq<string>)
    requires forall w :: w in ws ==> w != [] && NoSpace(w)
    ensures Words(JoinWith(ws, ' ')) == ws
  {
    if ws == [] {
    } else {
      var w := ws[0];
      assert w in ws;
      assert forall v :: v in ws[1..] ==> v in ws;
      var s := JoinWith(ws, ' ');
      if |ws| == 1 {
        assert s == w && w + [] == w && ws == [w];
        WordsOfWord(w, []);
      } else {
        var j := JoinWith(ws[1..], ' ');
        assert s == w + [' '] + j;
        WordsOfWord(w, [' '] + j);
        assert (w + ([' '] + j))[|w|..] == [' '] + j;
        assert (w + [' '] + j) == w + ([' '] + j);
        assert ([' '] + j)[1..] == j;
        WordsOfJoin(ws[1..]);
        assert ws == [w] + ws[1..];
      }
    }
  }

  /** A non-blank word followed by a whitespace character or nothing is read as one word. */
  lemma WordsOfWord(w: string, rest: string)
    requires w != [] && NoSpace(w)
    requires rest == [] || IsSpace(rest[0])
    ensures Words(w + rest) == [w] + Words(rest)
  {
    var s := w + rest;
    assert forall k :: 0 <= k < |w| ==> s[k] == w[k] && IsNonSpace(s[k]);
    assert rest != [] ==> s[|w|] == rest[0];
    var e := RunEnd(s, 0, IsNonSpace);
    assert e == |w|;
    assert s[..e] == w;
    assert s[e..] == rest;
  }

  /** Text without whitespace is one word, or none when it is empty. */
  lemma WordsOfNoSpace(w: string)
    requires NoSpace(w)
    ensures Words(w) == (if w == [] then [] else [w])
  {
    if w != [] {
      WordsOfWord(w, []);
      assert w + [] == w;
    }
  }

  /** A whitespace character separates words: the words on either side of it are
      the words of the text, so tabs and runs of spaces count like one space.
      With WordsOfNoSpace this fixes the words of every text. */
  lemma {:induction false} WordsAtSpace(a: string, c: char, b: string)
    requires IsSpace(c)
    ensures Words(a + [c] + b) == Words(a) + Words(b)
    decreases |a|
  {
    var s := a + [c] + b;
    if a == [] {
      assert s[1..] == b;
    } else if IsSpace(a[0]) {
      assert s[1..] == a[1..] + [c] + b;
      WordsAtSpace(a[1..], c, b);
    } else {
      var ea := RunEnd(a, 0, IsNonSpace);
      assert forall k :: 0 <= k < |a| ==> s[k] == a[k];
      assert s[|a|] == c;
      RunEndUnique(s, 0, IsNonSpace, ea);
      assert s[..ea] == a[..ea];
      assert s[ea..] == a[ea..] + [c] + b;
      WordsAtSpace(a[ea..], c, b);
    }
  }

  /** simplified() is idempotent: the parser simplifies lines that are already simplified. */
  lemma SimplifiedIdempotent(s: string)
    ensures Simplified(Simplified(s)) == Simplified(s)
  {
    WordsOfJoin(Words(s));
  }

  /** simplified() returns a simplified string with the same words as its input. */
  lemma {:induction false} SimplifiedShape(s: string)
    ensures IsSimplified(Simplified(s))
    ensures Words(Simplified(s)) == Words(s)
  {
    WordsOfJoin(Words(s));
    JoinIsSimplified(Words(s));
  }

  lemma {:induction false} JoinIsSimplified(ws: seq<string>)
    requires forall w :: w in ws ==> w != [] && NoSpace(w)
    ensures IsSimplified(JoinWith(ws, ' '))
    ensures ws != [] ==>
              |JoinWith(ws, ' ')| > 0 && IsNonSpace(JoinWith(ws, ' ')[0]) &&
              IsNonSpace(JoinWith(ws, ' ')[|JoinWith(ws, ' ')| - 1])
  {
    if ws == [] {
    } else if |ws| == 1 {
      assert ws[0] in ws;
    } else {
      var w := ws[0];
      assert w in ws;
      assert forall v :: v in ws[1..] ==> v in ws;
      var j := JoinWith(ws[1..], ' ');
      JoinIsSimplified(ws[1..]);
      var t := w + [' '] + j;
      assert JoinWith(ws, ' ') == t;
      forall k | 0 <= k < |t| && IsSpace(t[k])
        ensures t[k] == ' ' && 0 < k < |t| - 1 && IsNonSpace(t[k - 1]) && IsNonSpace(t[k + 1])
      {
        assert forall i :: 0 <= i < |w| ==> t[i] == w[i];
        assert forall i :: 0 <= i < |j| ==> t[|w| + 1 + i] == j[i];
        assert k != |w| ==> k > |w| && IsSpace(j[k - |w| - 1]);
      }
    }
  }

  /** Splitting the parts joined with `sep` gives back the parts, when no part holds `sep`. */
  lemma {:induction false} SplitOfJoin(parts: seq<string>, sep: char)
    requires parts != []
    requires forall p :: p in parts ==> sep !in p
    ensures Split(JoinWith(parts, sep), sep) == parts
  {
    var w := parts[0];
    assert w in parts;
    if |parts| == 1 {
      SplitNoSep(w, sep);
    } else {
      assert forall v :: v in parts[1..] ==> v in parts;
      var j := JoinWith(parts[1..], sep);
      assert JoinWith(parts, sep) == w + [sep] + j;
      SplitCons(w, j, sep);
      SplitOfJoin(parts[1..], sep);
      assert parts == [w] + parts[1..];
    }
  }

  /** Text without the separator is a single part. */
  lemma SplitNoSep(w: string, sep: char)
    requires sep !in w
    ensures Split(w, sep) == [w]
  {
    assert forall k :: 0 <= k < |w| ==> w[k] != sep;
  }

  /** The first part ends at the first separator. */
  lemma SplitCons(w: string, rest: string, sep: char)
    requires sep !in w
    ensures Split(w + [sep] + rest, sep) == [w] + Split(rest, sep)
  {
    var s := w + [sep] + rest;
    assert s[|w|] == sep;
    assert forall k :: 0 <= k < |w| ==> s[k] == w[k] && s[k] != sep;
    assert IndexOf(s, sep, 0) == |w|;
    assert s[..|w|] == w;
    assert s[|w| + 1..] == rest;
  }

  /** The numeric value of an ASCII digit. */
  function DigitValue(c: char): (v: nat)
    requires IsDigit(c)
    ensures v <= 9 && (v == 0 <==> c == '0')
  {
    c as int - '0' as int
  }

  /** The value of the decimal digits `s[lo..hi]`, most significant first. */
  function DigitsValue(s: string, lo: nat, hi: nat): (v: nat)
    requires lo <= hi <= |s|
    requires forall k :: lo <= k < hi ==> IsDigit(s[k])
    ensures v > 0 <==> exists k :: lo <= k < hi && s[k] != '0'
    decreases hi
  {
    if lo == hi then 0 else DigitsValue(s, lo, hi - 1) * 10 + DigitValue(s[hi - 1])
  }

  function Pow10(n: nat): (p: nat)
    ensures p >= 1
  {
    if n == 0 then 1 else 10 * Pow10(n - 1)
  }

  predicate IsWidthChar(c: char) { IsDigit(c) || c == '.' }

  /** What QString::toDouble reads as a number when the text holds only digits and
      points: at least one digit and at most one point, that is, the first point is
      also the last ("5", "1.624", "1.", ".5"). */
  predicate IsDecimal(s: string)
    requires forall k :: 0 <= k < |s| ==> IsWidthChar(s[k])
  {
    (exists k :: 0 <= k < |s| && IsDigit(s[k])) && IndexOf(s, '.', 0) == LastIndexOf(s, '.')
  }

  /** QString::toDouble on a run of digits and points, with exact decimal arithmetic:
      the value of a decimal, and 0.0 (the failure value) for anything else. */
  function ToDouble(s: string): (r: real)
    requires forall k :: 0 <= k < |s| ==> IsWidthChar(s[k])
    ensures !IsDecimal(s) ==> r == 0.0
    ensures IsDecimal(s) ==> (r > 0.0 <==> exists k :: 0 <= k < |s| && IsDigit(s[k]) && s[k] != '0')
    ensures r >= 0.0
  {
    var dot := IndexOf(s, '.', 0);
    if dot < 0 then
      assert forall k :: 0 <= k < |s| ==> s[k] != '.' && IsWidthChar(s[k]);
      ToDoubleDigits(s);
      DigitsValue(s, 0, |s|) as real
    else
      var second := IndexOf(s, '.', dot + 1);
      if second >= 0 || |s| == 1 then
        ToDoubleNotDecimal(s, dot, second);
        0.0
      else
        ToDoubleDecimal(s, dot);
        var n := DigitsValue(s, 0, dot) as real;
        var f := DigitsValue(s, dot + 1, |s|) as real;
        var p := Pow10(|s| - dot - 1) as real;
        assert f / p >= 0.0 && (f > 0.0 ==> f / p > 0.0);
        n + f / p
  }

  lemma ToDoubleDigits(s: string)
    requires forall k :: 0 <= k < |s| ==> IsDigit(s[k])
    ensures IsDecimal(s) <==> s != []
  {
    if s != [] {
      assert IsDigit(s[0]);
    }
  }

  lemma ToDoubleDecimal(s: string, dot: nat)
    requires forall k :: 0 <= k < |s| ==> IsWidthChar(s[k])
    requires dot < |s| && s[dot] == '.' && forall k :: 0 <= k < |s| && k != dot ==> s[k] != '.'
    requires |s| > 1
    ensures forall k :: 0 <= k < dot ==> IsDigit(s[k])
    ensures forall k :: dot + 1 <= k < |s| ==> IsDigit(s[k])
    ensures IsDecimal(s)
    ensures (exists k :: 0 <= k < dot && s[k] != '0') || (exists k :: dot + 1 <= k < |s| && s[k] != '0')
            <==> exists k :: 0 <= k < |s| && IsDigit(s[k]) && s[k] != '0'
  {
    if dot > 0 { assert IsDigit(s[0]); } else { assert IsDigit(s[1]); }
  }

  lemma ToDoubleNotDecimal(s: string, dot: nat, second: int)
    requires forall k :: 0 <= k < |s| ==> IsWidthChar(s[k])
    requires dot < |s| && s[dot] == '.' && forall k :: 0 <= k < dot ==> s[k] != '.'
    requires second == IndexOf(s, '.', dot + 1)
    requires second >= 0 || |s| == 1
    ensures !IsDecimal(s)
  {
    if second < 0 {
      assert forall k :: 0 <= k < |s| ==> !IsDigit(s[k]);
    }
  }

  /** A joined list opens with its first part. */
  lemma JoinStart(parts: seq<string>, sep: char)
    requires parts != []
    ensures |JoinWith(parts, sep)| >= |parts[0]|
    ensures JoinWith(parts, sep)[..|parts[0]|] == parts[0]
  {
    if |parts| > 1 {
      var rest := JoinWith(parts[1..], sep);
      assert JoinWith(parts, sep) == parts[0] + ([sep] + rest);
    }
  }

  /** The lines, each followed by a line feed: the shape of a C string literal written
      as one literal per line. */
  function Terminated(lines: seq<string>): string
  {
    if lines == [] then [] else lines[0] + "\n" + Terminated(lines[1..])
  }

  /** Splitting terminated lines on the line feed gives the lines back, with one
      empty part after the last line feed. */
  lemma {:induction false} SplitTerminated(lines: seq<string>)
    requires forall k :: 0 <= k < |lines| ==> '\n' !in lines[k]
    ensures Split(Terminated(lines), '\n') == lines + [""]
  {
    if lines == [] {
      SplitNoSep("", '\n');
    } else {
      var tail := lines[1..];
      assert forall k :: 0 <= k < |tail| ==> tail[k] == lines[k + 1];
      SplitTerminated(tail);
      SplitTerminatedStep(lines);
      SnocCons(lines, "");
    }
  }

  lemma SplitTerminatedStep(lines: seq<string>)
    requires lines != [] && '\n' !in lines[0]
    ensures Split(Terminated(lines), '\n') == [lines[0]] + Split(Terminated(lines[1..]), '\n')
  {
    assert Terminated(lines) == lines[0] + ['\n'] + Terminated(lines[1..]);
    SplitCons(lines[0], Terminated(lines[1..]), '\n');
  }

  lemma SnocCons<T>(xs: seq<T>, x: T)
    requires xs != []
    ensures xs + [x] == [xs[0]] + (xs[1..] + [x])
  {
  }

  /** A character in none of the parts, other than the separator, is not in their join. */
  lemma {:induction false} NotInJoin(parts: seq<string>, sep: char, c: char)
    requires c != sep
    requires forall k :: 0 <= k < |parts| ==> c !in parts[k]
    ensures c !in JoinWith(parts, sep)
  {
    if |parts| > 1 {
      NotInJoin(parts[1..], sep, c);
    }
  }
}
