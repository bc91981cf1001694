/** The `KEY: value` reader that both the decision handler and the state
    update of app/api/llm-decision/route.ts run over the completion text:
    split into lines, drop blank lines, split each line at its first colon
    and record the trimmed key and the trimmed rest, the last line with a
    given key winning. */
module FieldParser {
  import opened Common
  import opened Text

  type FieldMap = map<string, string>

  /** What one line contributes, as `[key, ...valueParts] = line.split(":")`
      computes it: nothing when the text before the first colon is empty or
      there is no colon, else the trimmed key and the trimmed rest of the
      line with its later colons kept. */
  function LineEntry(line: string): (r: Option<(string, string)>)
    ensures r.Some? ==> ':' in line && ':' !in r.value.0
  {
    var parts := Split(line, ':');
    var key := parts[0];
    if key != "" && |parts| > 1 then
      CountAbsent(line, ':');
      TrimKeepsCharacters(key);
      Some((Trim(key), Trim(Join(parts[1..], ":"))))
    else None
  }

  /** A line yields an entry exactly when it has a colon that is not its
      first character; the key is the trimmed text before the first colon
      and the value the trimmed text after it, later colons included. */
  lemma LineEntryAtFirstColon(line: string)
    ensures LineEntry(line).Some? <==> ':' in line && line[0] != ':'
    ensures LineEntry(line).Some? ==>
      var i := IndexOf(line, ':').value;
      LineEntry(line).value == (Trim(line[..i]), Trim(line[i + 1..]))
  {
    if ':' in line {
      SplitAtFirst(line, ':');
      var i := IndexOf(line, ':').value;
      assert line[..i] == "" <==> i == 0;
    }
  }

  /** A line of whitespace yields nothing, so dropping blank lines first
      changes nothing. */
  lemma BlankLineHasNoEntry(line: string)
    requires Trim(line) == ""
    ensures LineEntry(line) == None
  {
    assert ':' !in line by {
      forall i | 0 <= i < |line| ensures line[i] != ':' {
        assert IsWhitespace(line[i]);
      }
    }
    LineEntryAtFirstColon(line);
  }

  /** `response.split("\n").filter((line) => line.trim())`. */
  function NonBlankLines(lines: seq<string>): seq<string> {
    if lines == [] then [] else Kept(lines[0]) + NonBlankLines(lines[1..])
  }

  /** The line itself if it is not blank, else nothing. */
  function Kept(line: string): seq<string> {
    if Trim(line) != "" then [line] else []
  }

  /** What each line contributes, in order. */
  function Entries(lines: seq<string>): (es: seq<Option<(string, string)>>)
    ensures |es| == |lines|
    ensures forall i :: 0 <= i < |lines| ==> es[i] == LineEntry(lines[i])
  {
    seq(|lines|, i requires 0 <= i < |lines| => LineEntry(lines[i]))
  }

  /** The map after the entries have been recorded in order, each one
      overwriting an earlier value of its key. */
  function Record(es: seq<Option<(string, string)>>): FieldMap {
    if es == [] then map[] else Put(Record(es[..|es| - 1]), es[|es| - 1])
  }

  /** `parsed[key] = value` for one entry, if there is one. */
  function Put(m: FieldMap, e: Option<(string, string)>): FieldMap {
    match e
    case None => m
    case Some(kv) => m[kv.0 := kv.1]
  }

  /** Recording one more entry of `es`. */
  lemma RecordStep(es: seq<Option<(string, string)>>, i: nat)
    requires i < |es|
    ensures Record(es[..i + 1]) == Put(Record(es[..i]), es[i])
  {
    assert es[..i + 1][..i] == es[..i];
  }

  /** The fields of a completion text. Blank lines yield nothing, so the
      map is the one recorded from all the lines. */
  function FieldsOf(response: string): (parsed: FieldMap)
    ensures parsed == Record(Entries(Split(response, '\n')))
  {
    BlankLinesDoNotMatter(Split(response, '\n'));
    Record(Entries(NonBlankLines(Split(response, '\n'))))
  }

  /** The index of the last entry with key `k`, if any. */
  function LastWithKey(es: seq<Option<(string, string)>>, k: string): (r: Option<nat>)
    ensures r.Some? ==> (r.value < |es| && es[r.value].Some? && es[r.value].value.0 == k)
    ensures r.Some? ==> (forall j :: r.value < j < |es| ==> es[j].None? || es[j].value.0 != k)
    ensures r.None? ==> (forall j :: 0 <= j < |es| ==> es[j].None? || es[j].value.0 != k)
  {
    if es == [] then None
    else
      var n := |es| - 1;
      if es[n].Some? && es[n].value.0 == k then Some(n)
      else
        var r := LastWithKey(es[..n], k);
        assert forall j :: 0 <= j < n ==> es[..n][j] == es[j];
        r
  }

  /** A key is recorded exactly when some line yields it, and it maps to the
      value of the last such line: a repeated key keeps its last value. */
  lemma {:induction false} RecordLastWins(es: seq<Option<(string, string)>>, k: string)
    ensures k in Record(es) <==> LastWithKey(es, k).Some?
    ensures k in Record(es) ==> Record(es)[k] == es[LastWithKey(es, k).value].value.1
  {
    if es != [] {
      var n := |es| - 1;
      RecordLastWins(es[..n], k);
      if !(es[n].Some? && es[n].value.0 == k) {
        var r := LastWithKey(es[..n], k);
        if r.Some? {
          assert es[..n][r.value] == es[r.value];
        }
      }
    }
  }

  lemma {:induction false} NonBlankLinesSnoc(lines: seq<string>, line: string)
    ensures NonBlankLines(lines + [line]) == NonBlankLines(lines) + Kept(line)
  {
    if lines == [] {
      assert lines + [line] == [line];
      assert NonBlankLines([line]) == Kept(line) + NonBlankLines([]);
    } else {
      var all := lines + [line];
      assert all[0] == lines[0] && all[1..] == lines[1..] + [line];
      NonBlankLinesSnoc(lines[1..], line);
      calc {
        NonBlankLines(all);
        Kept(lines[0]) + NonBlankLines(lines[1..] + [line]);
        Kept(lines[0]) + (NonBlankLines(lines[1..]) + Kept(line));
        NonBlankLines(lines) + Kept(line);
      }
    }
  }

  /** Recording one more line adds that line's entry, if any. */
  lemma RecordLinesSnoc(lines: seq<string>, line: string)
    ensures Record(Entries(lines + [line])) == Put(Record(Entries(lines)), LineEntry(line))
  {
    var es := Entries(lines + [line]);
    assert es[..|lines|] == Entries(lines);
    assert es[|lines|] == LineEntry(line);
  }

  /** Dropping the blank lines before recording does not change the map. */
  lemma {:induction false} BlankLinesDoNotMatter(lines: seq<string>)
    ensures Record(Entries(NonBlankLines(lines))) == Record(Entries(lines))
  {
    if lines != [] {
      var n := |lines| - 1;
      var front, last := lines[..n], lines[n];
      assert lines == front + [last];
      BlankLinesDoNotMatter(front);
      KeptLineStep(front, last);
    }
  }

  /** One step of that induction: the last line has the same effect on both
      sides, with or without the filter. */
  lemma KeptLineStep(front: seq<string>, last: string)
    requires Record(Entries(NonBlankLines(front))) == Record(Entries(front))
    ensures Record(Entries(NonBlankLines(front + [last]))) == Record(Entries(front + [last]))
  {
    var kept := NonBlankLines(front);
    NonBlankLinesSnoc(front, last);
    RecordLinesSnoc(front, last);
    if Trim(last) == "" {
      BlankLineHasNoEntry(last);
      assert NonBlankLines(front + [last]) == kept;
    } else {
      assert NonBlankLines(front + [last]) == kept + [last];
      RecordLinesSnoc(kept, last);
    }
  }

  /** The `forEach` of route.ts over the non-blank lines: fill a map line by
      line. */
  method RecordLines(lines: seq<string>) returns (parsed: FieldMap)
    ensures parsed == Record(Entries(lines))
  {
    ghost var es := Entries(lines);
    parsed := map[];
    var i := 0;
    while i < |lines|
      invariant 0 <= i <= |lines|
      invariant parsed == Record(es[..i])
    {
      RecordStep(es, i);
      var line := lines[i];
      var parts := Split(line, ':');
      var key := parts[0];
      if key != "" && |parts| > 1 {
        parsed := parsed[Trim(key) := Trim(Join(parts[1..], ":"))];
      }
      i := i + 1;
    }
    assert es[..|lines|] == es;
  }

  /** The parse step shared by both handlers of route.ts. */
  method ParseFields(response: string) returns (parsed: FieldMap)
    ensures parsed == FieldsOf(response)
  {
    var lines := NonBlankLines(Split(response, '\n'));
    parsed := RecordLines(lines);
  }
}
