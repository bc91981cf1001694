/** The JavaScript string operations the simulator relies on: `trim`,
    `split` on a one-character separator, `join`, `includes`,
    `toUpperCase` and `slice(-n)`, each stated over `seq<char>`. */
module Text {
  import opened Common

  /** JavaScript's WhiteSpace and LineTerminator code points, the set that
      `String.prototype.trim` and `parseInt` skip. */
  predicate IsWhitespace(c: char) {
    || c == ' ' || c == '\t' || c == '\n' || c == '\r'
    || c == '\U{000B}' || c == '\U{000C}' || c == '\U{00A0}' || c == '\U{1680}'
    || ('\U{2000}' <= c <= '\U{200A}')
    || c == '\U{2028}' || c == '\U{2029}' || c == '\U{202F}' || c == '\U{205F}'
    || c == '\U{3000}' || c == '\U{FEFF}'
  }

  predicate AllWhitespace(s: string) {
    forall i :: 0 <= i < |s| ==> IsWhitespace(s[i])
  }

  /** The position of the first non-whitespace character of `s` at or after
      `i`, or `|s|` if there is none. */
  function SkipBlanks(s: string, i: nat): (k: nat)
    requires i <= |s|
    ensures i <= k <= |s|
    ensures forall j :: i <= j < k ==> IsWhitespace(s[j])
    ensures k < |s| ==> !IsWhitespace(s[k])
    decreases |s| - i
  {
    if i < |s| && IsWhitespace(s[i]) then SkipBlanks(s, i + 1) else i
  }

  /** The position just after the last non-whitespace character of `s`
      before `j`, or 0 if there is none. */
  function SkipBlanksBack(s: string, j: nat): (k: nat)
    requires j <= |s|
    ensures k <= j
    ensures forall i :: k <= i < j ==> IsWhitespace(s[i])
    ensures k > 0 ==> !IsWhitespace(s[k - 1])
  {
    if j > 0 && IsWhitespace(s[j - 1]) then SkipBlanksBack(s, j - 1) else j
  }

  /** `r` is `s` with only whitespace taken off either end. */
  ghost predicate StrippedOf(s: string, r: string) {
    exists a, b :: s == a + r + b && AllWhitespace(a) && AllWhitespace(b)
  }

  /** The slice of `s` between two blank margins is stripped of `s`. */
  lemma BlankMargins(s: string, i: nat, k: nat)
    requires i <= k <= |s|
    requires forall j :: 0 <= j < i ==> IsWhitespace(s[j])
    requires forall j :: k <= j < |s| ==> IsWhitespace(s[j])
    ensures StrippedOf(s, s[i..k])
  {
    var a, b := s[..i], s[k..];
    assert s == a + s[i..k] + b;
    assert AllWhitespace(a) by {
      forall j | 0 <= j < |a| ensures IsWhitespace(a[j]) {
        assert a[j] == s[j];
      }
    }
    assert AllWhitespace(b) by {
      forall j | 0 <= j < |b| ensures IsWhitespace(b[j]) {
        assert b[j] == s[k + j];
      }
    }
  }

  /** `s.trim()`: `s` without its leading and trailing whitespace. The
      result is empty exactly for a blank text, and otherwise starts and
      ends with a character that is not whitespace. */
  function Trim(s: string): (r: string)
    ensures StrippedOf(s, r)
    ensures r == [] <==> AllWhitespace(s)
    ensures r != [] ==> !IsWhitespace(r[0]) && !IsWhitespace(r[|r| - 1])
    ensures |r| <= |s|
  {
    var i := SkipBlanks(s, 0);
    if i == |s| then
      BlankMargins(s, |s|, |s|);
      []
    else
      var k := SkipBlanksBack(s, |s|);
      assert !IsWhitespace(s[i]);
      BlankMargins(s, i, k);
      s[i..k]
  }

  /** Trimming keeps only characters of the text. */
  lemma TrimKeepsCharacters(s: string)
    ensures forall c | c in Trim(s) :: c in s
  {
    var i := SkipBlanks(s, 0);
    if i < |s| {
      var k := SkipBlanksBack(s, |s|);
      forall c | c in s[i..k] ensures c in s {
        var j :| 0 <= j < k - i && s[i..k][j] == c;
        assert s[i + j] == c;
      }
    }
  }

  /** The position of the first occurrence of `c` in `s`, if any. */
  function IndexOf(s: string, c: char): (r: Option<nat>)
    ensures r.None? <==> c !in s
    ensures r.Some? ==> r.value < |s| && s[r.value] == c && c !in s[..r.value]
  {
    if |s| == 0 then None
    else if s[0] == c then Some(0)
    else match IndexOf(s[1..], c)
      case None => None
      case Some(i) =>
        assert s[..i + 1] == [s[0]] + s[1..][..i];
        Some(i + 1)
  }

  /** The number of occurrences of `c` in `s`. */
  function Count(s: string, c: char): nat {
    if |s| == 0 then 0 else (if s[0] == c then 1 else 0) + Count(s[1..], c)
  }

  lemma {:induction false} CountAppend(a: string, b: string, c: char)
    ensures Count(a + b, c) == Count(a, c) + Count(b, c)
  {
    if |a| > 0 {
      assert (a + b)[1..] == a[1..] + b;
      CountAppend(a[1..], b, c);
    } else {
      assert a + b == b;
    }
  }

  /** A character occurs nowhere exactly when it is counted zero times. */
  lemma {:induction false} CountAbsent(s: string, c: char)
    ensures Count(s, c) == 0 <==> c !in s
  {
    if |s| > 0 {
      assert s == [s[0]] + s[1..];
      CountAbsent(s[1..], c);
    }
  }

  /** `parts.join(sep)`. */
  function Join(parts: seq<string>, sep: string): string {
    if |parts| == 0 then ""
    else if |parts| == 1 then parts[0]
    else parts[0] + sep + Join(parts[1..], sep)
  }

  /** `s.split(sep)` for a one-character separator: the pieces between the
      separators, one more piece than there are separators, none of them
      holding the separator, and joining them back gives `s` again. */
  function Split(s: string, sep: char): (parts: seq<string>)
    ensures |parts| == Count(s, sep) + 1
    ensures forall p | p in parts :: sep !in p
    ensures Join(parts, [sep]) == s
    decreases |s|
  {
    match IndexOf(s, sep)
    case None =>
      CountAbsent(s, sep);
      [s]
    case Some(i) =>
      var rest := Split(s[i + 1..], sep);
      SplitHead(s, sep, i, rest);
      [s[..i]] + rest
  }

  /** The step of `Split`: the text before the first separator, put in front
      of a splitting of the text after it, is a splitting of the whole. */
  lemma SplitHead(s: string, sep: char, i: nat, rest: seq<string>)
    requires i < |s| && s[i] == sep && sep !in s[..i]
    requires |rest| == Count(s[i + 1..], sep) + 1
    requires forall p | p in rest :: sep !in p
    requires Join(rest, [sep]) == s[i + 1..]
    ensures |[s[..i]] + rest| == Count(s, sep) + 1
    ensures forall p | p in [s[..i]] + rest :: sep !in p
    ensures Join([s[..i]] + rest, [sep]) == s
  {
    var parts := [s[..i]] + rest;
    assert s == s[..i] + ([sep] + s[i + 1..]);
    CountAbsent(s[..i], sep);
    CountAppend(s[..i], [sep] + s[i + 1..], sep);
    CountAppend([sep], s[i + 1..], sep);
    assert parts[0] == s[..i] && parts[1..] == rest;
    assert Join(parts, [sep]) == s[..i] + [sep] + s[i + 1..];
  }

  /** Splitting at the first separator: the head piece is the text before
      the first `sep`, and the other pieces join back to the text after it. */
  lemma SplitAtFirst(s: string, sep: char)
    requires sep in s
    ensures var i := IndexOf(s, sep).value;
      && Split(s, sep)[0] == s[..i]
      && |Split(s, sep)| > 1
      && Join(Split(s, sep)[1..], [sep]) == s[i + 1..]
  {
    var i := IndexOf(s, sep).value;
    assert Split(s, sep) == [s[..i]] + Split(s[i + 1..], sep);
    assert Split(s, sep)[1..] == Split(s[i + 1..], sep);
  }

  /** A separator right after a separator-free head is its first occurrence. */
  lemma IndexOfAfterHead(head: string, sep: char, tail: string)
    requires sep !in head
    ensures IndexOf(head + [sep] + tail, sep) == Some(|head|)
  {
    var s := head + [sep] + tail;
    assert s[|head|] == sep;
    assert s[..|head|] == head;
  }

  /** The other half of the round trip: splitting a join of separator-free
      pieces gives the pieces back. */
  lemma {:induction false} SplitJoin(parts: seq<string>, sep: char)
    requires |parts| >= 1
    requires forall p | p in parts :: sep !in p
    ensures Split(Join(parts, [sep]), sep) == parts
  {
    if |parts| == 1 {
      assert sep !in parts[0];
    } else {
      var tail := Join(parts[1..], [sep]);
      var s := parts[0] + [sep] + tail;
      assert Join(parts, [sep]) == s;
      assert sep !in parts[0];
      IndexOfAfterHead(parts[0], sep, tail);
      assert s[..|parts[0]|] == parts[0];
      assert s[|parts[0]| + 1..] == tail;
      assert forall p | p in parts[1..] :: p in parts;
      SplitJoin(parts[1..], sep);
      assert Split(s, sep) == [parts[0]] + Split(tail, sep);
    }
  }

  /** A join is empty exactly when there is nothing to join or the one
      piece is itself empty. */
  lemma JoinEmptyIff(parts: seq<string>, sep: string)
    requires sep != ""
    ensures Join(parts, sep) == "" <==> parts == [] || parts == [""]
  {
    if |parts| >= 2 {
      assert |Join(parts, sep)| >= |sep|;
    }
  }

  /** The first piece of a join is a prefix of the joined text. */
  lemma JoinHead(parts: seq<string>, sep: string)
    requires |parts| >= 1
    ensures |parts[0]| <= |Join(parts, sep)| && Join(parts, sep)[..|parts[0]|] == parts[0]
  {
    if |parts| >= 2 {
      assert Join(parts, sep) == parts[0] + (sep + Join(parts[1..], sep));
    }
  }

  /** `s.includes(sub)`. */
  predicate Contains(s: string, sub: string)
    decreases |s|
  {
    |sub| <= |s| && (s[..|sub|] == sub || Contains(s[1..], sub))
  }

  /** `sub` occurs in `s` starting at position `i`. */
  predicate OccursAt(s: string, sub: string, i: int) {
    0 <= i <= |s| - |sub| && s[i..i + |sub|] == sub
  }

  /** `Contains` holds exactly when `sub` occurs at some position of `s`. */
  lemma {:induction false} ContainsIff(s: string, sub: string)
    ensures Contains(s, sub) <==> exists i :: OccursAt(s, sub, i)
  {
    if |sub| <= |s| && s[..|sub|] != sub {
      ContainsIff(s[1..], sub);
      forall i | OccursAt(s[1..], sub, i) ensures OccursAt(s, sub, i + 1) {
        assert s[i + 1..i + 1 + |sub|] == s[1..][i..i + |sub|];
      }
      forall i | OccursAt(s, sub, i) ensures OccursAt(s[1..], sub, i - 1) {
        assert s[1..][i - 1..i - 1 + |sub|] == s[i..i + |sub|];
      }
    } else if |sub| <= |s| {
      assert OccursAt(s, sub, 0);
    }
  }

  /** `toUpperCase` on one character, for the ASCII letters. */
  function UpperChar(c: char): char {
    if 'a' <= c <= 'z' then (c as int - 32) as char else c
  }

  /** `s.toUpperCase()`, ASCII letters only. */
  function ToUpper(s: string): (r: string)
    ensures |r| == |s|
    ensures forall i :: 0 <= i < |s| ==> r[i] == UpperChar(s[i])
  {
    if |s| == 0 then "" else [UpperChar(s[0])] + ToUpper(s[1..])
  }

  /** Exactly the two spellings of a letter upper-case to it. */
  lemma UpperIsLetter(s: string, letter: char)
    requires 'A' <= letter <= 'Z'
    ensures ToUpper(s) == [letter] <==> s == [letter] || s == [(letter as int + 32) as char]
  {
    if ToUpper(s) == [letter] {
      assert |s| == 1 && UpperChar(s[0]) == letter;
    }
  }

  /** `s.slice(-n)` for a positive `n`: the last `n` elements, or all of
      them when there are fewer. */
  function LastN<T>(s: seq<T>, n: nat): (r: seq<T>)
    requires n > 0
    ensures |r| == if |s| < n then |s| else n
    ensures r == s[|s| - |r|..]
  {
    if |s| < n then s else s[|s| - n..]
  }

  /** `s.slice(0, n)`: the first `n` elements, or all of them. */
  function FirstN<T>(s: seq<T>, n: nat): (r: seq<T>)
    ensures |r| == if |s| < n then |s| else n
    ensures r == s[..|r|]
  {
    if |s| < n then s else s[..n]
  }

  /** `s || placeholder` for a string: the placeholder replaces exactly the
      empty text. */
  function OrPlaceholder(s: string, placeholder: string): (r: string)
    ensures s != "" ==> r == s
    ensures s == "" ==> r == placeholder
  {
    if s == "" then placeholder else s
  }
}
