/**
 The coverage profile merge (tools/covergate/main.go): the lines that every test binary
 writes for every package are merged by range, and a rate is taken over the blocks in
 whatever order the Go map yields them. Totals are 64-bit; a rate is their exact quotient.
 */
module Coverage {
  import opened Wrappers
  import opened AsciiText
  import opened Decimal

  datatype Block = Block(path: string, statements: int, covered: bool)

  datatype Entry = Entry(key: string, block: Block)

  datatype LineError = WrongFields(count: nat) | BadStatements | BadCount

  // ---- Reading one line ----

  /** strings.Fields: the maximal runs without blanks. */
  function Fields(s: string): (fields: seq<string>) {
    FieldsFrom(s, "")
  }

  function FieldsFrom(s: string, field: string): seq<string> {
    if s == "" then if field == "" then [] else [field]
    else if IsBlank(s[0]) then (if field == "" then [] else [field]) + FieldsFrom(s[1..], "")
    else FieldsFrom(s[1..], field + [s[0]])
  }

  /** The text before the last colon, if there is one. */
  function BeforeLastColon(s: string): string {
    if ':' !in s then s
    else if s[|s| - 1] == ':' then s[..|s| - 1]
    else BeforeLastColon(s[..|s| - 1])
  }

  function TrimPrefix(s: string, prefix: string): string {
    if prefix <= s then s[|prefix|..] else s
  }

  function ModulePath(raw: string, prefix: string): string {
    TrimPrefix(BeforeLastColon(raw), prefix)
  }

  function ParseLine(raw: string, prefix: string): Result<Entry, LineError> {
    var fields := Fields(raw);
    if |fields| != 3 then Err(WrongFields(|fields|))
    else
      match ParseInt64(fields[1])
      case None => Err(BadStatements)
      case Some(statements) =>
        match ParseInt64(fields[2])
        case None => Err(BadCount)
        case Some(count) => Ok(Entry(fields[0], Block(ModulePath(fields[0], prefix), statements, count > 0)))
  }

  predicate IsSkipped(line: string) {
    var raw := TrimRight(TrimLeft(line));
    raw == "" || "mode:" <= raw
  }

  /** The entries of a profile, or the number of its first unreadable line and what is wrong with it. */
  function Read(lines: seq<string>, prefix: string): Result<seq<Entry>, (nat, LineError)> {
    if lines == [] then Ok([])
    else
      match Read(lines[..|lines| - 1], prefix)
      case Err(e) => Err(e)
      case Ok(entries) =>
        var last := lines[|lines| - 1];
        if IsSkipped(last) then Ok(entries)
        else
          match ParseLine(TrimRight(TrimLeft(last)), prefix)
          case Err(e) => Err((|lines|, e))
          case Ok(entry) => Ok(entries + [entry])
  }

  // ---- Writing a profile, and reading it back ----

  /** One line of a profile: a range, its statements, its executions. */
  datatype Line = Line(key: string, statements: int, count: int) {
    function Text(): string {
      key + " " + OfInt(statements) + " " + OfInt(count)
    }

    function Meaning(prefix: string): Entry {
      Entry(key, Block(ModulePath(key, prefix), statements, count > 0))
    }

    predicate WellFormed() {
      IsWord(key) && !("mode:" <= key)
    }

    predicate Readable() {
      WellFormed() && IsInt64(statements) && IsInt64(count)
    }
  }

  predicate IsWord(s: string) {
    s != "" && forall i :: 0 <= i < |s| ==> !IsBlank(s[i])
  }

  function Texts(lines: seq<Line>): (texts: seq<string>) {
    seq(|lines|, i requires 0 <= i < |lines| => lines[i].Text())
  }

  function Meanings(lines: seq<Line>, prefix: string): (entries: seq<Entry>) {
    seq(|lines|, i requires 0 <= i < |lines| => lines[i].Meaning(prefix))
  }

  /** A field ends at the next blank. */
  lemma {:induction false} FirstField(word: string, rest: string, field: string)
    requires forall i :: 0 <= i < |word| ==> !IsBlank(word[i])
    ensures FieldsFrom(word + rest, field) == FieldsFrom(rest, field + word)
  {
    if word == "" {
      assert word + rest == rest && field + word == field;
    } else {
      assert (word + rest)[1..] == word[1..] + rest;
      FirstField(word[1..], rest, field + [word[0]]);
      assert field + [word[0]] + word[1..] == field + word;
    }
  }

  lemma {:induction false} BlanksSkipped(pad: string, rest: string)
    requires AllBlank(pad)
    ensures Fields(pad + rest) == Fields(rest)
  {
    if pad == "" {
      assert pad + rest == rest;
    } else {
      assert (pad + rest)[1..] == pad[1..] + rest;
      BlanksSkipped(pad[1..], rest);
    }
  }

  lemma FieldThenBlanks(word: string, pad: string, rest: string)
    requires IsWord(word) && AllBlank(pad) && (pad == "" ==> rest == "")
    ensures Fields(word + pad + rest) == [word] + Fields(rest)
  {
    FirstField(word, pad + rest, "");
    assert word + pad + rest == word + (pad + rest) && "" + word == word;
    if pad != "" {
      BlanksSkipped(pad[1..], rest);
      assert (pad + rest)[1..] == pad[1..] + rest;
    }
  }

  /** Whatever blanks stand between and around them, the fields are the words. */
  function Laid(words: seq<string>, pads: seq<string>): string
    requires |pads| == |words|
  {
    if words == [] then "" else words[0] + pads[0] + Laid(words[1..], pads[1..])
  }

  lemma {:induction false} FieldsAre(first: string, words: seq<string>, pads: seq<string>)
    requires |pads| == |words| && AllBlank(first)
    requires forall i :: 0 <= i < |words| ==> IsWord(words[i]) && AllBlank(pads[i])
    requires forall i :: 0 <= i < |words| - 1 ==> pads[i] != ""
    ensures Fields(first + Laid(words, pads)) == words
    decreases |words|
  {
    BlanksSkipped(first, Laid(words, pads));
    if words != [] {
      FieldsAre("", words[1..], pads[1..]);
      assert "" + Laid(words[1..], pads[1..]) == Laid(words[1..], pads[1..]);
      FieldThenBlanks(words[0], pads[0], Laid(words[1..], pads[1..]));
    }
  }

  /** A line is read from its three words alone, and refused for any other number of them. */
  lemma LineIsItsWords(words: seq<string>, first: string, pads: seq<string>, l: Line, prefix: string)
    requires |pads| == |words| && AllBlank(first)
    requires forall i :: 0 <= i < |words| ==> IsWord(words[i]) && AllBlank(pads[i])
    requires forall i :: 0 <= i < |words| - 1 ==> pads[i] != ""
    ensures |words| != 3 ==> ParseLine(first + Laid(words, pads), prefix) == Err(WrongFields(|words|))
    ensures l.WellFormed() && words == [l.key, OfInt(l.statements), OfInt(l.count)] ==>
              ParseLine(first + Laid(words, pads), prefix) == ParseLine(l.Text(), prefix)
  {
    FieldsAre(first, words, pads);
    if l.WellFormed() && words == [l.key, OfInt(l.statements), OfInt(l.count)] {
      NumeralIsWord(l.statements);
      NumeralIsWord(l.count);
      ThreeFields(l.key, OfInt(l.statements), OfInt(l.count));
    }
    hide Fields;
    hide Laid;
    hide ParseInt64;
    hide ModulePath;
  }

  /** The file of a range is its text up to the last colon, without the module prefix. */
  lemma {:induction false} FileOfRange(file: string, range: string, prefix: string)
    requires ':' !in range
    ensures ModulePath(prefix + file + ":" + range, prefix) == file
    ensures !(prefix <= file) ==> ModulePath(file + ":" + range, prefix) == file
    ensures ':' !in file && !(prefix <= file) ==> ModulePath(file, prefix) == file
  {
    UpToLastColon(prefix + file, range);
    UpToLastColon(file, range);
  }

  lemma {:induction false} UpToLastColon(file: string, range: string)
    requires ':' !in range
    ensures BeforeLastColon(file + ":" + range) == file
  {
    var s := file + ":" + range;
    assert s[|file|] == ':';
    if range == "" {
      assert s[..|s| - 1] == file;
    } else {
      assert s[|s| - 1] == range[|range| - 1];
      assert s[..|s| - 1] == file + ":" + range[..|range| - 1];
      UpToLastColon(file, range[..|range| - 1]);
    }
  }

  lemma ThreeFields(a: string, b: string, c: string)
    requires IsWord(a) && IsWord(b) && IsWord(c)
    ensures Fields(a + " " + b + " " + c) == [a, b, c]
  {
    NextField(a, b + " " + c);
    NextField(b, c);
    FirstField(c, "", "");
    assert a + " " + b + " " + c == a + " " + (b + " " + c);
    assert c + "" == c && "" + c == c;
  }

  lemma NextField(word: string, rest: string)
    requires IsWord(word)
    ensures Fields(word + " " + rest) == [word] + Fields(rest)
  {
    FirstField(word, " " + rest, "");
    assert word + " " + rest == word + (" " + rest) && "" + word == word;
    assert (" " + rest)[1..] == rest;
  }

  lemma NumeralIsWord(i: int)
    ensures IsWord(OfInt(i))
  {
  }

  /** Exactly the 64-bit numbers are read, negative ones too. */
  lemma LineIsRead(l: Line, prefix: string)
    requires l.WellFormed()
    ensures ParseLine(l.Text(), prefix) ==
            if !IsInt64(l.statements) then Err(BadStatements)
            else if !IsInt64(l.count) then Err(BadCount)
            else Ok(l.Meaning(prefix))
  {
    NumeralIsWord(l.statements);
    NumeralIsWord(l.count);
    ThreeFields(l.key, OfInt(l.statements), OfInt(l.count));
    ParseInt64RoundTrip(l.statements);
    ParseInt64RoundTrip(l.count);
    hide *;
  }

  /** A longer text is no header either, unless its tail makes it one. */
  lemma NoHeader(key: string, rest: string)
    requires !("mode:" <= key) && rest != "" && rest[0] !in "mode:"
    ensures !("mode:" <= key + rest)
  {
    assert |key| >= 5 ==> (key + rest)[..5] == key[..5];
    assert (key + rest)[|key|] == rest[0];
  }

  /** The text of a line has no blanks around it and is no header. */
  lemma TextIsTrimmed(l: Line)
    requires l.WellFormed()
    ensures TrimRight(TrimLeft(l.Text())) == l.Text() && !IsSkipped(l.Text())
  {
    var last, rest := OfInt(l.count), " " + OfInt(l.statements) + " " + OfInt(l.count);
    NumeralIsWord(l.count);
    hide OfInt;
    NoHeader(l.key, rest);
    assert l.Text() == l.key + rest;
    hide Line.Text;
    EndsAre(l.key, rest, last);
    TrimOfTrimmed(l.key + rest);
    hide TrimLeft;
    hide TrimRight;
  }

  lemma EndsAre(key: string, rest: string, last: string)
    requires IsWord(key) && IsWord(last) && |rest| >= |last| && rest[|rest| - |last|..] == last
    ensures Trimmed(key + rest)
  {
    assert (key + rest)[0] == key[0];
    assert (key + rest)[|key + rest| - 1] == rest[|rest| - 1] == last[|last| - 1];
  }

  lemma ReadOneMore(texts: seq<string>, l: Line, prefix: string)
    requires Read(texts, prefix).Ok? && l.Readable()
    ensures Read(texts + [l.Text()], prefix) == Ok(Read(texts, prefix).value + [l.Meaning(prefix)])
  {
    var all, n := texts + [l.Text()], |texts|;
    assert all[..n] == texts && all[..n + 1] == all;
    LineIsRead(l, prefix);
    TextIsTrimmed(l);
    ReadStep(all, prefix, n);
    hide *;
  }

  /** A profile is read back line by line. */
  lemma {:induction false} ReadUndoesWrite(lines: seq<Line>, prefix: string)
    requires forall l :: l in lines ==> l.Readable()
    ensures Read(Texts(lines), prefix) == Ok(Meanings(lines, prefix))
  {
    if lines == [] {
      NothingRead(prefix);
      assert Texts(lines) == [] && Meanings(lines, prefix) == [];
    } else {
      hide *;
      var n := |lines| - 1;
      ReadUndoesWrite(lines[..n], prefix);
      ReadOneMore(Texts(lines[..n]), lines[n], prefix);
      LinesGrow(lines, n, prefix);
    }
  }

  lemma LinesGrow(lines: seq<Line>, n: nat, prefix: string)
    requires |lines| == n + 1
    ensures Texts(lines) == Texts(lines[..n]) + [lines[n].Text()]
    ensures Meanings(lines, prefix) == Meanings(lines[..n], prefix) + [lines[n].Meaning(prefix)]
  {
    hide Line.Text;
    hide Line.Meaning;
  }

  // ---- The merge ----

  /** The range is the key, and covered is an OR over its occurrences. */
  function MergeAll(entries: seq<Entry>): map<string, Block> {
    if entries == [] then map[]
    else
      var seen, last := MergeAll(entries[..|entries| - 1]), entries[|entries| - 1];
      seen[last.key := last.block.(covered := last.block.covered || (last.key in seen && seen[last.key].covered))]
  }

  /** Lines of one range agree on how many statements it has, and in which file. */
  ghost predicate Agree(entries: seq<Entry>) {
    forall e, f :: e in entries && f in entries && e.key == f.key ==>
      e.block.statements == f.block.statements && e.block.path == f.block.path
  }

  ghost predicate Mentioned(entries: seq<Entry>, key: string) {
    exists e :: e in entries && e.key == key
  }

  ghost predicate Executed(entries: seq<Entry>, key: string) {
    exists e :: e in entries && e.key == key && e.block.covered
  }

  /** The merge holds exactly the ranges mentioned, each covered exactly when some line executed it. */
  lemma {:induction false} MergedIs(entries: seq<Entry>, key: string)
    requires Agree(entries)
    ensures key in MergeAll(entries) <==> Mentioned(entries, key)
    ensures key in MergeAll(entries) ==> (MergeAll(entries)[key].covered <==> Executed(entries, key))
    ensures forall e :: e in entries && e.key == key ==>
              && key in MergeAll(entries)
              && MergeAll(entries)[key].statements == e.block.statements && MergeAll(entries)[key].path == e.block.path
  {
    if entries != [] {
      var front, last := entries[..|entries| - 1], entries[|entries| - 1];
      assert forall e :: e in front ==> e in entries;
      assert forall e :: e in entries ==> e in front || e == last;
      MergedIs(front, key);
    }
  }

  /** The same ranges, executed alike, merge alike. */
  lemma MergeDependsOnRanges(a: seq<Entry>, b: seq<Entry>)
    requires Agree(a + b)
    requires forall key :: Mentioned(a, key) <==> Mentioned(b, key)
    requires forall key :: Executed(a, key) <==> Executed(b, key)
    ensures MergeAll(a) == MergeAll(b)
  {
    forall key ensures key in MergeAll(a) <==> key in MergeAll(b) {
      AgreeingParts(a, b);
      MergedIs(a, key);
      MergedIs(b, key);
    }
    forall key | key in MergeAll(a) ensures MergeAll(a)[key] == MergeAll(b)[key] {
      AgreeingParts(a, b);
      MergedIs(a, key);
      SameBlock(a, b, key);
    }
  }

  lemma AgreeingParts(a: seq<Entry>, b: seq<Entry>)
    requires Agree(a + b)
    ensures Agree(a) && Agree(b)
  {
    assert forall e :: e in a || e in b ==> e in a + b;
  }

  /** Where both profiles have a range, they give it the same file and size. */
  lemma SameBlock(a: seq<Entry>, b: seq<Entry>, key: string)
    requires Agree(a + b) && Mentioned(a, key) && Mentioned(b, key)
    ensures key in MergeAll(a) && key in MergeAll(b)
    ensures MergeAll(a)[key].statements == MergeAll(b)[key].statements
    ensures MergeAll(a)[key].path == MergeAll(b)[key].path
    ensures MergeAll(a)[key].covered <==> Executed(a, key)
    ensures MergeAll(b)[key].covered <==> Executed(b, key)
  {
    AgreeingParts(a, b);
    MergedIs(a, key);
    MergedIs(b, key);
    var e :| e in a && e.key == key;
    var f :| f in b && f.key == key;
    assert e in a + b && f in a + b;
  }

  /** Permuting and duplicating the lines of a profile changes nothing. */
  lemma MergeForgetsOrder(a: seq<Entry>, b: seq<Entry>)
    requires Agree(a) && forall e :: e in a <==> e in b
    ensures MergeAll(a) == MergeAll(b)
  {
    assert Agree(a + b);
    MergeDependsOnRanges(a, b);
  }

  /** Neither do more lines for known ranges that executed nothing. */
  lemma ZeroLinesChangeNothing(a: seq<Entry>, b: seq<Entry>)
    requires Agree(a + b)
    requires forall e :: e in a ==> e in b
    requires forall e :: e in b ==> e in a || (Mentioned(a, e.key) && !e.block.covered)
    ensures MergeAll(a) == MergeAll(b)
  {
    MergeDependsOnRanges(a, b);
  }

  // ---- The rate ----

  /** Statements of the kept blocks, all of them or only the covered ones. */
  function Count(blocks: seq<Block>, keep: string -> bool, onlyCovered: bool): int {
    if blocks == [] then 0
    else
      var last := blocks[|blocks| - 1];
      Count(blocks[..|blocks| - 1], keep, onlyCovered)
      + if keep(last.path) && (last.covered || !onlyCovered) then last.statements else 0
  }

  function RateOf(blocks: seq<Block>, keep: string -> bool): real {
    var total := Wrap64(Count(blocks, keep, false));
    if total == 0 then 0.0 else 100.0 * Wrap64(Count(blocks, keep, true)) as real / total as real
  }

  /** The weights of the kept blocks: nothing kept counts nothing, and blocks add up. */
  lemma {:induction false} CountAddsUp(a: seq<Block>, b: seq<Block>, keep: string -> bool, onlyCovered: bool)
    ensures Count(a + b, keep, onlyCovered) == Count(a, keep, onlyCovered) + Count(b, keep, onlyCovered)
    ensures (forall i :: 0 <= i < |a| ==> !keep(a[i].path) || (onlyCovered && !a[i].covered)) ==>
              Count(a, keep, onlyCovered) == 0
    ensures |a| == 1 && keep(a[0].path) && (a[0].covered || !onlyCovered) ==>
              Count(a, keep, onlyCovered) == a[0].statements
  {
    if b == [] {
      assert a + b == a;
      if a != [] {
        CountAddsUp(a[..|a| - 1], [], keep, onlyCovered);
        assert a[..|a| - 1] + [] == a[..|a| - 1];
      }
    } else {
      assert (a + b)[..|a + b| - 1] == a + b[..|b| - 1];
      CountAddsUp(a, b[..|b| - 1], keep, onlyCovered);
    }
  }

  /** Nothing kept, or nothing kept covered, has rate 0; everything kept covered has rate 100. */
  lemma RateExtremes(blocks: seq<Block>, keep: string -> bool)
    ensures Wrap64(Count(blocks, keep, false)) == 0 ==> RateOf(blocks, keep) == 0.0
    ensures (forall i :: 0 <= i < |blocks| && keep(blocks[i].path) ==> !blocks[i].covered) ==>
              RateOf(blocks, keep) == 0.0
    ensures (forall i :: 0 <= i < |blocks| && keep(blocks[i].path) ==> blocks[i].covered)
            && Wrap64(Count(blocks, keep, false)) != 0 ==>
              RateOf(blocks, keep) == 100.0
  {
    hide RateOf;
    hide Wrap64;
    RateOfNothing(blocks, keep);
    if forall i :: 0 <= i < |blocks| && keep(blocks[i].path) ==> !blocks[i].covered {
      NoneCovered(blocks, keep);
    }
    if forall i :: 0 <= i < |blocks| && keep(blocks[i].path) ==> blocks[i].covered {
      AllCovered(blocks, keep);
      hide Count;
      if Wrap64(Count(blocks, keep, false)) != 0 {
        RateOfAll(blocks, keep);
      }
    }
    hide Count;
  }

  lemma RateOfNothing(blocks: seq<Block>, keep: string -> bool)
    ensures Wrap64(Count(blocks, keep, false)) == 0 || Count(blocks, keep, true) == 0 ==> RateOf(blocks, keep) == 0.0
  {
    hide Count;
    assert Wrap64(0) == 0;
    hide Wrap64;
    if Wrap64(Count(blocks, keep, false)) != 0 {
      Quotient(0, Wrap64(Count(blocks, keep, false)));
    }
  }

  lemma RateOfAll(blocks: seq<Block>, keep: string -> bool)
    requires Wrap64(Count(blocks, keep, true)) == Wrap64(Count(blocks, keep, false)) != 0
    ensures RateOf(blocks, keep) == 100.0
  {
    hide Count;
    hide Wrap64;
    Quotient(Wrap64(Count(blocks, keep, false)), Wrap64(Count(blocks, keep, false)));
  }

  lemma NoneCovered(blocks: seq<Block>, keep: string -> bool)
    requires forall i :: 0 <= i < |blocks| && keep(blocks[i].path) ==> !blocks[i].covered
    ensures Count(blocks, keep, true) == 0
  {
    CountAddsUp(blocks, [], keep, true);
  }

  lemma Quotient(covered: int, total: int)
    requires total != 0
    ensures covered == total ==> 100.0 * covered as real / total as real == 100.0
    ensures covered == 0 ==> 100.0 * covered as real / total as real == 0.0
  {
  }

  lemma {:induction false} AllCovered(blocks: seq<Block>, keep: string -> bool)
    requires forall i :: 0 <= i < |blocks| && keep(blocks[i].path) ==> blocks[i].covered
    ensures Count(blocks, keep, true) == Count(blocks, keep, false)
  {
    if blocks != [] {
      AllCovered(blocks[..|blocks| - 1], keep);
    }
  }

  /** Wrapping at every addition is wrapping once. */
  lemma WrapAdds(a: int, b: int)
    ensures Wrap64(Wrap64(a) + b) == Wrap64(a + b)
  {
    var v, w := Wrap64(Wrap64(a) + b), Wrap64(a + b);
    var m := 0x1_0000_0000_0000_0000;
    var q := (v - (Wrap64(a) + b)) / m + (Wrap64(a) - a) / m - (w - (a + b)) / m;
    assert v - w == q * m;
  }

  method Rate(blocks: seq<Block>, keep: string -> bool) returns (r: real)
    ensures r == RateOf(blocks, keep)
    ensures var total, covered := Wrap64(Count(blocks, keep, false)), Wrap64(Count(blocks, keep, true));
            if total == 0 then r == 0.0 else r * total as real == 100.0 * covered as real
  {
    hide Wrap64;
    var total, covered := 0, 0;
    for i := 0 to |blocks|
      invariant total == Wrap64(Count(blocks[..i], keep, false)) && covered == Wrap64(Count(blocks[..i], keep, true))
    {
      assert blocks[..i + 1][..i] == blocks[..i];
      WrapAdds(Count(blocks[..i], keep, false), blocks[i].statements);
      WrapAdds(Count(blocks[..i], keep, true), blocks[i].statements);
      if keep(blocks[i].path) {
        total := Wrap64(total + blocks[i].statements);
        if blocks[i].covered {
          covered := Wrap64(covered + blocks[i].statements);
        }
      }
    }
    assert blocks[..|blocks|] == blocks;
    if total == 0 {
      return 0.0;
    }
    return 100.0 * covered as real / total as real;
  }

  /** An order in which the map may be walked. */
  ghost predicate Walks(keys: seq<string>, m: map<string, Block>) {
    && (forall i, j :: 0 <= i < j < |keys| ==> keys[i] != keys[j])
    && (forall key :: key in keys <==> key in m)
  }

  function BlocksOf(m: map<string, Block>, keys: seq<string>): (blocks: seq<Block>)
    requires forall key :: key in keys ==> key in m
    ensures |blocks| == |keys|
  {
    seq(|keys|, i requires 0 <= i < |keys| => m[keys[i]])
  }

  function Weight(b: Block, keep: string -> bool, onlyCovered: bool): int {
    if keep(b.path) && (b.covered || !onlyCovered) then b.statements else 0
  }

  lemma CountStep(m: map<string, Block>, keys: seq<string>, keep: string -> bool, onlyCovered: bool)
    requires keys != [] && forall key :: key in keys ==> key in m
    ensures Count(BlocksOf(m, keys), keep, onlyCovered) ==
            Count(BlocksOf(m, keys[..|keys| - 1]), keep, onlyCovered) + Weight(m[keys[|keys| - 1]], keep, onlyCovered)
  {
    var blocks := BlocksOf(m, keys);
    assert blocks[..|blocks| - 1] == BlocksOf(m, keys[..|keys| - 1]);
  }

  /** Taking one key out takes its weight out. */
  lemma {:induction false} CountWithout(
    m: map<string, Block>, keys: seq<string>, i: nat, keep: string -> bool, onlyCovered: bool)
    requires i < |keys| && forall key :: key in keys ==> key in m
    ensures Count(BlocksOf(m, keys), keep, onlyCovered) ==
            Count(BlocksOf(m, keys[..i] + keys[i + 1..]), keep, onlyCovered) + Weight(m[keys[i]], keep, onlyCovered)
  {
    hide Count;
    hide BlocksOf;
    hide Weight;
    var last := |keys| - 1;
    CountStep(m, keys, keep, onlyCovered);
    if i == last {
      assert keys[..i] + keys[i + 1..] == keys[..last];
    } else {
      var without := keys[..i] + keys[i + 1..];
      CountWithout(m, keys[..last], i, keep, onlyCovered);
      assert keys[..last][..i] + keys[..last][i + 1..] == without[..|without| - 1];
      CountStep(m, without, keep, onlyCovered);
    }
  }

  /** The count does not depend on the order of the walk. */
  lemma {:induction false} CountForgetsOrder(
    m: map<string, Block>, ks: seq<string>, ls: seq<string>, keep: string -> bool, onlyCovered: bool)
    requires forall key :: key in ks ==> key in m
    requires forall i, j :: 0 <= i < j < |ks| ==> ks[i] != ks[j]
    requires forall i, j :: 0 <= i < j < |ls| ==> ls[i] != ls[j]
    requires forall key :: key in ks <==> key in ls
    ensures Count(BlocksOf(m, ks), keep, onlyCovered) == Count(BlocksOf(m, ls), keep, onlyCovered)
  {
    assert ls != [] ==> ls[0] in ks;
    if ks != [] {
      var last := |ks| - 1;
      assert ks[last] in ls;
      var i :| 0 <= i < |ls| && ls[i] == ks[last];
      var rest := ls[..i] + ls[i + 1..];
      CountStep(m, ks, keep, onlyCovered);
      CountWithout(m, ls, i, keep, onlyCovered);
      SameRest(ks, ls, last, i);
      hide *;
      CountForgetsOrder(m, ks[..last], rest, keep, onlyCovered);
    }
  }

  lemma SameRest(ks: seq<string>, ls: seq<string>, last: nat, i: nat)
    requires forall j, k :: 0 <= j < k < |ks| ==> ks[j] != ks[k]
    requires forall j, k :: 0 <= j < k < |ls| ==> ls[j] != ls[k]
    requires (forall key :: key in ks <==> key in ls) && last + 1 == |ks| && i < |ls| && ls[i] == ks[last]
    ensures forall key :: key in ks[..last] <==> key in ls[..i] + ls[i + 1..]
  {
    forall key ensures key in ks[..last] <==> key in ls[..i] + ls[i + 1..] {
      OthersRemain(ks, last, key);
      OthersRemain(ls, i, key);
      assert ks[..last] + ks[last + 1..] == ks[..last];
    }
  }

  lemma OthersRemain(keys: seq<string>, i: nat, key: string)
    requires i < |keys| && forall j, k :: 0 <= j < k < |keys| ==> keys[j] != keys[k]
    ensures key in keys[..i] + keys[i + 1..] <==> key in keys && key != keys[i]
  {
    if key in keys && key != keys[i] {
      var j :| 0 <= j < |keys| && keys[j] == key;
      assert j < i ==> keys[..i][j] == key;
      assert j > i ==> keys[i + 1..][j - i - 1] == key;
    }
  }

  /** The rate of a merged profile is the same in whatever order its map is walked. */
  lemma RateForgetsOrder(m: map<string, Block>, ks: seq<string>, ls: seq<string>, keep: string -> bool)
    requires Walks(ks, m) && Walks(ls, m)
    ensures RateOf(BlocksOf(m, ks), keep) == RateOf(BlocksOf(m, ls), keep)
  {
    CountForgetsOrder(m, ks, ls, keep, false);
    CountForgetsOrder(m, ks, ls, keep, true);
    hide Count;
    hide BlocksOf;
    hide Wrap64;
  }

  /** Statement counts are counts. */
  ghost predicate Countable(blocks: seq<Block>) {
    forall i :: 0 <= i < |blocks| ==> blocks[i].statements >= 0
  }

  lemma {:induction false} CoveredIsPart(blocks: seq<Block>, keep: string -> bool)
    requires Countable(blocks)
    ensures 0 <= Count(blocks, keep, true) <= Count(blocks, keep, false)
  {
    if blocks != [] {
      CoveredIsPart(blocks[..|blocks| - 1], keep);
    }
  }

  lemma RateIsAPercentage(blocks: seq<Block>, keep: string -> bool)
    requires Countable(blocks) && Count(blocks, keep, false) <= MAX_INT64
    ensures 0.0 <= RateOf(blocks, keep) <= 100.0
  {
    CoveredIsPart(blocks, keep);
    var total, covered := Count(blocks, keep, false), Count(blocks, keep, true);
    if total != 0 {
      RatioBound(covered, total);
    }
  }

  lemma RatioBound(covered: int, total: int)
    requires 0 <= covered <= total && total > 0
    ensures 0.0 <= 100.0 * covered as real / total as real <= 100.0
  {
    assert 100.0 * covered as real <= 100.0 * total as real;
  }

  lemma CountTwo(a: Block, b: Block, keep: string -> bool, onlyCovered: bool)
    ensures Count([a, b], keep, onlyCovered) == Weight(a, keep, onlyCovered) + Weight(b, keep, onlyCovered)
  {
    assert [a, b][..1] == [a] && [a][..0] == [];
    assert Count([a], keep, onlyCovered) == Weight(a, keep, onlyCovered);
  }

  /** A quotient of opposite signs, or of more than all, is no percentage. */
  lemma OutOfRange(covered: int, total: int)
    requires total != 0 && (covered < 0 < total || total < 0 < covered || covered < total < 0 || 0 < total < covered)
    ensures !(0.0 <= 100.0 * covered as real / total as real <= 100.0)
  {
    var q := 100.0 * covered as real / total as real;
    assert q * total as real == 100.0 * covered as real;
    ProductBounds(q, total as real);
  }

  lemma ProductBounds(q: real, t: real)
    ensures 0.0 <= q <= 100.0 && t >= 0.0 ==> 0.0 <= q * t <= 100.0 * t
    ensures 0.0 <= q <= 100.0 && t <= 0.0 ==> 100.0 * t <= q * t <= 0.0
  {
    if 0.0 <= q <= 100.0 {
      ProductSign(q, t);
      ProductSign(100.0 - q, t);
    }
  }

  lemma ProductSign(q: real, t: real)
    requires q >= 0.0
    ensures t >= 0.0 ==> q * t >= 0.0
    ensures t <= 0.0 ==> q * t <= 0.0
  {
  }

  /** With totals up to a bound, rates of non-negative counts are percentages exactly when the bound fits 64 bits. */
  lemma TotalsMustFit(bound: int)
    ensures (forall blocks, keep :: Countable(blocks) && Count(blocks, keep, false) <= bound ==>
               0.0 <= RateOf(blocks, keep) <= 100.0)
            <==> bound <= MAX_INT64
  {
    if bound <= MAX_INT64 {
      forall blocks, keep | Countable(blocks) && Count(blocks, keep, false) <= bound
        ensures 0.0 <= RateOf(blocks, keep) <= 100.0
      {
        RateIsAPercentage(blocks, keep);
      }
    } else {
      var a, b, all := Block("", MAX_INT64, true), Block("", 1, false), (path: string) => true;
      CountTwo(a, b, all, false);
      CountTwo(a, b, all, true);
      assert Wrap64(MAX_INT64 + 1) == MIN_INT64;
      OutOfRange(MAX_INT64, MIN_INT64);
      assert Countable([a, b]) && Count([a, b], all, false) <= bound;
    }
  }

  /** The blocks of the same ranges, some of them newly covered. */
  ghost predicate CoversMore(a: seq<Block>, b: seq<Block>) {
    |a| == |b| && forall i :: 0 <= i < |a| ==>
      a[i].path == b[i].path && a[i].statements == b[i].statements && (a[i].covered ==> b[i].covered)
  }

  /** Nothing newly covered counts below zero. */
  ghost predicate NewOnesCount(a: seq<Block>, b: seq<Block>)
    requires |a| == |b|
  {
    forall i :: 0 <= i < |a| && b[i].covered && !a[i].covered ==> a[i].statements >= 0
  }

  lemma {:induction false} CountsGrow(a: seq<Block>, b: seq<Block>, keep: string -> bool)
    requires CoversMore(a, b) && NewOnesCount(a, b)
    ensures Count(a, keep, false) == Count(b, keep, false) && Count(a, keep, true) <= Count(b, keep, true)
  {
    if a != [] {
      CountsGrow(a[..|a| - 1], b[..|b| - 1], keep);
    }
  }

  lemma RateGrows(a: seq<Block>, b: seq<Block>, keep: string -> bool)
    requires CoversMore(a, b) && NewOnesCount(a, b) && Fits(a, keep) && Fits(b, keep)
    requires Count(a, keep, false) >= 0
    ensures RateOf(a, keep) <= RateOf(b, keep)
  {
    CountsGrow(a, b, keep);
    var total := Count(a, keep, false);
    if total != 0 {
      RatioGrows(Count(a, keep, true), Count(b, keep, true), total);
    }
  }

  ghost predicate Fits(blocks: seq<Block>, keep: string -> bool) {
    IsInt64(Count(blocks, keep, false)) && IsInt64(Count(blocks, keep, true))
  }

  lemma RatioGrows(covered: int, more: int, total: int)
    requires covered <= more && total > 0
    ensures 100.0 * covered as real / total as real <= 100.0 * more as real / total as real
  {
    assert 100.0 * covered as real <= 100.0 * more as real;
  }

  /**
   Extra lines for known ranges never lower a rate, wherever they stand, when the
   ranges they newly cover do not count below zero and the totals fit.
   */
  lemma ExtraLinesNeverLower(a: seq<Entry>, b: seq<Entry>, ks: seq<string>, ls: seq<string>, keep: string -> bool)
    requires Agree(a + b)
    requires forall e :: e in a ==> e in b
    requires forall e :: e in b ==> Mentioned(a, e.key)
    requires forall e :: e in b && e.block.covered && !Executed(a, e.key) ==> e.block.statements >= 0
    requires Walks(ks, MergeAll(a)) && Walks(ls, MergeAll(b))
    requires Fits(BlocksOf(MergeAll(a), ks), keep) && Fits(BlocksOf(MergeAll(b), ls), keep)
    requires Count(BlocksOf(MergeAll(a), ks), keep, false) >= 0
    ensures RateOf(BlocksOf(MergeAll(a), ks), keep) <= RateOf(BlocksOf(MergeAll(b), ls), keep)
  {
    GrowsAlong(a, b, ks);
    CountForgetsOrder(MergeAll(b), ks, ls, keep, false);
    CountForgetsOrder(MergeAll(b), ks, ls, keep, true);
    RateGrows(BlocksOf(MergeAll(a), ks), BlocksOf(MergeAll(b), ks), keep);
    RateForgetsOrder(MergeAll(b), ks, ls, keep);
    hide *;
  }

  /** Along one walk, extra lines for known ranges only cover more. */
  lemma GrowsAlong(a: seq<Entry>, b: seq<Entry>, ks: seq<string>)
    requires Agree(a + b)
    requires forall e :: e in a ==> e in b
    requires forall e :: e in b ==> Mentioned(a, e.key)
    requires forall e :: e in b && e.block.covered && !Executed(a, e.key) ==> e.block.statements >= 0
    requires Walks(ks, MergeAll(a))
    ensures Walks(ks, MergeAll(b))
    ensures CoversMore(BlocksOf(MergeAll(a), ks), BlocksOf(MergeAll(b), ks))
    ensures NewOnesCount(BlocksOf(MergeAll(a), ks), BlocksOf(MergeAll(b), ks))
  {
    AgreeingParts(a, b);
    forall key ensures key in MergeAll(a) <==> key in MergeAll(b) {
      MergedIs(a, key);
      MergedIs(b, key);
    }
    var before, after := BlocksOf(MergeAll(a), ks), BlocksOf(MergeAll(b), ks);
    forall i | 0 <= i < |ks|
      ensures before[i].path == after[i].path && before[i].statements == after[i].statements
      ensures before[i].covered ==> after[i].covered
      ensures after[i].covered && !before[i].covered ==> before[i].statements >= 0
    {
      assert ks[i] in ks;
      BlockGrows(a, b, ks[i]);
    }
  }

  /** What extra lines do to one range. */
  lemma BlockGrows(a: seq<Entry>, b: seq<Entry>, key: string)
    requires Agree(a + b) && (forall e :: e in a ==> e in b) && key in MergeAll(a) && key in MergeAll(b)
    requires forall e :: e in b && e.block.covered && !Executed(a, e.key) ==> e.block.statements >= 0
    ensures var before, after := MergeAll(a)[key], MergeAll(b)[key];
            && before.path == after.path && before.statements == after.statements
            && (before.covered ==> after.covered)
            && (after.covered && !before.covered ==> before.statements >= 0)
  {
    AgreeingParts(a, b);
    MergedIs(a, key);
    MergedIs(b, key);
    SameBlock(a, b, key);
    if Executed(b, key) && !Executed(a, key) {
      var e :| e in b && e.key == key && e.block.covered;
    }
  }

  // ---- Profiles with one line more ----

  /** A readable profile whose ranges other than that of `l` have non-negative counts. */
  ghost predicate Sane(others: seq<Line>, l: Line) {
    forall o :: o in others ==> o.Readable() && (o.key != l.key ==> o.statements >= 0)
  }

  /** Along this walk of its map, the profile with `l` at its end has a percentage, if its total fits. */
  ghost predicate InRange(others: seq<Line>, l: Line, prefix: string, keep: string -> bool, keys: seq<string>) {
    var m := MergeAll(Meanings(others + [l], prefix));
    Walks(keys, m) && Count(BlocksOf(m, keys), keep, false) <= MAX_INT64 ==>
      0.0 <= RateOf(BlocksOf(m, keys), keep) <= 100.0
  }

  /** The sign of one line's statement count is exactly what keeps the rates within 0 and 100. */
  lemma RangeHeldIff(l: Line, prefix: string)
    requires l.Readable()
    ensures (forall others, keep, keys :: Sane(others, l) ==> InRange(others, l, prefix, keep, keys))
            <==> l.statements >= 0
  {
    if l.statements >= 0 {
      forall others, keep, keys | Sane(others, l) ensures InRange(others, l, prefix, keep, keys) {
        RangeHeld(others, l, prefix, keep, keys);
      }
    } else {
      RangeBroken(l, prefix);
    }
  }

  lemma RangeHeld(others: seq<Line>, l: Line, prefix: string, keep: string -> bool, keys: seq<string>)
    requires Sane(others, l) && l.statements >= 0
    ensures InRange(others, l, prefix, keep, keys)
  {
    var entries := Meanings(others + [l], prefix);
    var m := MergeAll(entries);
    if Walks(keys, m) && Count(BlocksOf(m, keys), keep, false) <= MAX_INT64 {
      forall i | 0 <= i < |keys| ensures BlocksOf(m, keys)[i].statements >= 0 {
        assert keys[i] in keys;
        NonNegativeBlock(others, l, prefix, keys[i]);
      }
      RateIsAPercentage(BlocksOf(m, keys), keep);
    }
  }

  lemma NonNegativeBlock(others: seq<Line>, l: Line, prefix: string, key: string)
    requires Sane(others, l) && l.statements >= 0 && key in MergeAll(Meanings(others + [l], prefix))
    ensures MergeAll(Meanings(others + [l], prefix))[key].statements >= 0
  {
    assert Meanings(others + [l], prefix) == Meanings(others, prefix) + [l.Meaning(prefix)];
    MergeStep(Meanings(others, prefix), l.Meaning(prefix));
    OtherBlocksCount(others, l, prefix, key);
    hide MergeAll;
  }

  lemma {:induction false} OtherBlocksCount(others: seq<Line>, l: Line, prefix: string, key: string)
    requires Sane(others, l)
    ensures key in MergeAll(Meanings(others, prefix)) && key != l.key ==>
              MergeAll(Meanings(others, prefix))[key].statements >= 0
  {
    if others != [] {
      var n := |others| - 1;
      OtherBlocksCount(others[..n], l, prefix, key);
      LinesGrow(others, n, prefix);
      MergeStep(Meanings(others[..n], prefix), others[n].Meaning(prefix));
      assert others[n] in others;
      hide MergeAll;
    }
  }

  /** Another range of the same kind. */
  function Next(key: string): string {
    key + "x"
  }

  lemma NextIsWellFormed(l: Line)
    requires l.WellFormed()
    ensures l.(key := Next(l.key)).WellFormed() && Next(l.key) != l.key
  {
    NoHeader(l.key, "x");
    assert forall i :: 0 <= i < |l.key| ==> Next(l.key)[i] == l.key[i];
  }

  /** A range that takes the rate of a profile with the negative line `l` out of range. */
  function Spoiler(l: Line): Line {
    Line(Next(l.key), if l.statements == -1 then 2 else 1, if l.count > 0 then 0 else 1)
  }

  lemma RangeBroken(l: Line, prefix: string)
    requires l.Readable() && l.statements < 0
    ensures exists others, keep, keys :: Sane(others, l) && !InRange(others, l, prefix, keep, keys)
  {
    var o := Spoiler(l);
    NextIsWellFormed(l);
    hide Line.WellFormed;
    hide ModulePath;
    hide InRange;
    assert Meanings([o] + [l], prefix) == [o.Meaning(prefix), l.Meaning(prefix)];
    assert Sane([o], l);
    hide Sane;
    TwoRanges(o, l, prefix);
    assert !InRange([o], l, prefix, (path: string) => true, [o.key, l.key]);
  }

  /** The text of a two-line profile that is read without an error and has a rate below 0 or above 100. */
  lemma NegativeLineBreaksTheRange(l: Line, prefix: string, keys: seq<string>)
    requires l.Readable() && l.statements < 0 && keys == [Spoiler(l).key, l.key]
    ensures var r := Read([Spoiler(l).Text(), l.Text()], prefix);
            && r.Ok? && Walks(keys, MergeAll(r.value))
            && !(0.0 <= RateOf(BlocksOf(MergeAll(r.value), keys), (path: string) => true) <= 100.0)
  {
    var o := Spoiler(l);
    NextIsWellFormed(l);
    ReadUndoesWrite([o, l], prefix);
    TwoRanges(o, l, prefix);
    assert [o] + [l] == [o, l] && Texts([o, l]) == [o.Text(), l.Text()];
  }

  lemma TwoRanges(o: Line, l: Line, prefix: string)
    requires o.key != l.key && l.statements < 0 < o.statements <= 2 && (o.count > 0 <==> l.count <= 0)
    requires o.statements + l.statements != 0 && IsInt64(l.statements) && (l.statements < -1 ==> o.statements == 1)
    ensures !InRange([o], l, prefix, (path: string) => true, [o.key, l.key])
  {
    var all, keys := (path: string) => true, [o.key, l.key];
    var x, y := o.Meaning(prefix), l.Meaning(prefix);
    assert Meanings([o] + [l], prefix) == [x, y];
    MergeTwo(x, y);
    assert BlocksOf(MergeAll([x, y]), keys) == [x.block, y.block];
    hide MergeAll;
    hide ModulePath;
    CountTwo(x.block, y.block, all, false);
    CountTwo(x.block, y.block, all, true);
    hide Count;
    OutOfRange(if l.count > 0 then l.statements else o.statements, o.statements + l.statements);
  }

  lemma MergeTwo(a: Entry, b: Entry)
    requires a.key != b.key
    ensures MergeAll([a, b]) == map[a.key := a.block, b.key := b.block]
  {
    MergeStep([], a);
    MergeStep([a], b);
    assert [] + [a] == [a] && [a] + [b] == [a, b];
    assert a.block.(covered := a.block.covered) == a.block && b.block.(covered := b.block.covered) == b.block;
    NothingRead("");
  }

  /** Along these walks, the line at the end does not lower the rate, if the total fits. */
  ghost predicate NotLowered(
    others: seq<Line>, l: Line, prefix: string, keep: string -> bool, ks: seq<string>, ls: seq<string>)
  {
    var a, b := MergeAll(Meanings(others, prefix)), MergeAll(Meanings(others + [l], prefix));
    Walks(ks, a) && Walks(ls, b) && Count(BlocksOf(a, ks), keep, false) <= MAX_INT64 ==>
      RateOf(BlocksOf(a, ks), keep) <= RateOf(BlocksOf(b, ls), keep)
  }

  /** The range of `l` is known, and every line agrees with it on what a range is. */
  ghost predicate Known(others: seq<Line>, l: Line, prefix: string) {
    Agree(Meanings(others + [l], prefix)) && exists o :: o in others && o.key == l.key
  }

  /**
   One more line for a known range never lowers a rate exactly when it executed nothing
   or counts no less than zero.
   */
  lemma ExtraLineNeverLowersIff(l: Line, prefix: string)
    requires l.Readable()
    ensures (forall others, keep, ks, ls :: Sane(others, l) && Known(others, l, prefix) ==>
               NotLowered(others, l, prefix, keep, ks, ls))
            <==> l.statements >= 0 || l.count <= 0
  {
    if l.statements >= 0 || l.count <= 0 {
      forall others, keep, ks, ls | Sane(others, l) && Known(others, l, prefix)
        ensures NotLowered(others, l, prefix, keep, ks, ls)
      {
        ExtraLine(others, l, prefix, keep, ks, ls);
      }
    } else {
      RateLowered(l, prefix);
    }
  }

  lemma ExtraLine(others: seq<Line>, l: Line, prefix: string, keep: string -> bool, ks: seq<string>, ls: seq<string>)
    requires Sane(others, l) && Known(others, l, prefix) && (l.statements >= 0 || l.count <= 0)
    ensures NotLowered(others, l, prefix, keep, ks, ls)
  {
    var a, b := Meanings(others, prefix), Meanings(others + [l], prefix);
    KnownLine(others, l, prefix);
    if Walks(ks, MergeAll(a)) && Walks(ls, MergeAll(b)) && Count(BlocksOf(MergeAll(a), ks), keep, false) <= MAX_INT64 {
      if l.count <= 0 {
        ZeroLinesChangeNothing(a, b);
        RateForgetsOrder(MergeAll(a), ks, ls, keep);
      } else {
        ExtraCountableLine(others, l, prefix, keep, ks, ls);
      }
    }
  }

  lemma ExtraCountableLine(
    others: seq<Line>, l: Line, prefix: string, keep: string -> bool, ks: seq<string>, ls: seq<string>)
    requires Sane(others, l) && Known(others, l, prefix) && l.statements >= 0
    requires Walks(ks, MergeAll(Meanings(others, prefix))) && Walks(ls, MergeAll(Meanings(others + [l], prefix)))
    requires Count(BlocksOf(MergeAll(Meanings(others, prefix)), ks), keep, false) <= MAX_INT64
    ensures RateOf(BlocksOf(MergeAll(Meanings(others, prefix)), ks), keep) <=
            RateOf(BlocksOf(MergeAll(Meanings(others + [l], prefix)), ls), keep)
  {
    var a, b := Meanings(others, prefix), Meanings(others + [l], prefix);
    KnownLine(others, l, prefix);
    GrowsAlong(a, b, ks);
    var before, after := BlocksOf(MergeAll(a), ks), BlocksOf(MergeAll(b), ks);
    forall i | 0 <= i < |ks| ensures after[i].statements >= 0 {
      assert ks[i] in ks;
      NonNegativeBlock(others, l, prefix, ks[i]);
    }
    CountsGrow(before, after, keep);
    CoveredIsPart(before, keep);
    CoveredIsPart(after, keep);
    RateGrows(before, after, keep);
    RateForgetsOrder(MergeAll(b), ks, ls, keep);
  }

  lemma KnownLine(others: seq<Line>, l: Line, prefix: string)
    requires Sane(others, l) && Known(others, l, prefix)
    ensures var a, b := Meanings(others, prefix), Meanings(others + [l], prefix);
            && b == a + [l.Meaning(prefix)] && Agree(a + b)
            && (forall e :: e in a ==> e in b) && (forall e :: e in b ==> Mentioned(a, e.key))
            && (l.statements >= 0 ==>
                  forall e :: e in b && e.block.covered && !Executed(a, e.key) ==> e.block.statements >= 0)
            && (l.count <= 0 ==> !l.Meaning(prefix).block.covered)
  {
    var a, b := Meanings(others, prefix), Meanings(others + [l], prefix);
    assert b == a + [l.Meaning(prefix)];
    var i :| 0 <= i < |others| && others[i].key == l.key;
    assert a[i] in a && a[i].key == l.key;
    assert forall e :: e in a + b ==> e in b;
  }

  /** With two more uncovered ranges of just enough statements, covering a negative one lowers the rate. */
  lemma RateLowered(l: Line, prefix: string)
    requires l.Readable() && l.statements < 0 < l.count
    ensures exists others, keep, ks, ls ::
              Sane(others, l) && Known(others, l, prefix) && !NotLowered(others, l, prefix, keep, ks, ls)
  {
    hide Sane;
    hide Known;
    hide NotLowered;
    var enough := -l.statements / 2 + 1;
    var x, y, z := l.(count := 0), Line(Next(l.key), enough, 0), Line(Next(Next(l.key)), enough, 0);
    NextIsWellFormed(l);
    NextIsWellFormed(y);
    assert |z.key| > |l.key|;
    hide Line.WellFormed;
    ThreeRanges(x, y, z, l, prefix);
    assert !NotLowered([x, y, z], l, prefix, (path: string) => true, [x.key, y.key, z.key], [x.key, y.key, z.key]);
  }

  /** Three uncovered ranges, the first of them negative, and the line `l` that covers it. */
  ghost predicate Shape(x: Line, y: Line, z: Line, l: Line) {
    && x.Readable() && y.Readable() && z.Readable() && x == l.(count := 0) && y.count == z.count == 0 < l.count
    && x.key != y.key && x.key != z.key && y.key != z.key
    && x.statements < 0 <= y.statements && 0 <= z.statements
    && 0 < x.statements + y.statements + z.statements <= MAX_INT64
  }

  lemma ThreeRanges(x: Line, y: Line, z: Line, l: Line, prefix: string)
    requires Shape(x, y, z, l)
    ensures Sane([x, y, z], l) && Known([x, y, z], l, prefix)
    ensures !NotLowered([x, y, z], l, prefix, (path: string) => true, [x.key, y.key, z.key], [x.key, y.key, z.key])
  {
    ThreeAreSane(x, y, z, l, prefix);
    var a, b, c, d := x.Meaning(prefix), y.Meaning(prefix), z.Meaning(prefix), l.Meaning(prefix);
    hide ModulePath;
    assert Meanings([x, y, z], prefix) == [a, b, c];
    assert Meanings([x, y, z] + [l], prefix) == [a, b, c] + [d];
    ThreeMerged(a, b, c, d);
    RatesOfThree(a.block, b.block, c.block, (path: string) => true);
  }

  lemma ThreeAreSane(x: Line, y: Line, z: Line, l: Line, prefix: string)
    requires Shape(x, y, z, l)
    ensures Sane([x, y, z], l) && Known([x, y, z], l, prefix)
  {
    hide ModulePath;
    hide Line.WellFormed;
    var a, b, c, d := x.Meaning(prefix), y.Meaning(prefix), z.Meaning(prefix), l.Meaning(prefix);
    assert Meanings([x, y, z] + [l], prefix) == [a, b, c, d];
    assert Agree([a, b, c, d]);
    hide Agree;
    assert [x, y, z][0] in [x, y, z];
  }

  lemma ThreeMerged(a: Entry, b: Entry, c: Entry, d: Entry)
    requires a.key != b.key && a.key != c.key && b.key != c.key
    requires d == a.(block := a.block.(covered := true)) && !a.block.covered
    ensures var keys, before, after := [a.key, b.key, c.key], MergeAll([a, b, c]), MergeAll([a, b, c] + [d]);
            && Walks(keys, before) && BlocksOf(before, keys) == [a.block, b.block, c.block]
            && Walks(keys, after) && BlocksOf(after, keys) == [d.block, b.block, c.block]
  {
    MergeThree(a, b, c);
    MergeStep([a, b, c], d);
    hide MergeAll;
    WalksThree(a, b, c, d, MergeAll([a, b, c]));
    WalksThree(a, b, c, d, MergeAll([a, b, c] + [d]));
  }

  lemma WalksThree(a: Entry, b: Entry, c: Entry, d: Entry, m: map<string, Block>)
    requires a.key != b.key && a.key != c.key && b.key != c.key
    requires a.key in m && m == map[a.key := m[a.key], b.key := b.block, c.key := c.block]
    ensures Walks([a.key, b.key, c.key], m)
    ensures BlocksOf(m, [a.key, b.key, c.key]) == [m[a.key], b.block, c.block]
  {
  }

  lemma RatesOfThree(x: Block, y: Block, z: Block, keep: string -> bool)
    requires keep(x.path) && keep(y.path) && keep(z.path) && !x.covered && !y.covered && !z.covered
    requires IsInt64(x.statements) && x.statements < 0 < x.statements + y.statements + z.statements <= MAX_INT64
    ensures Count([x, y, z], keep, false) <= MAX_INT64
    ensures RateOf([x.(covered := true), y, z], keep) < RateOf([x, y, z], keep)
  {
    var w := x.(covered := true);
    var total := x.statements + y.statements + z.statements;
    CountThree(x, y, z, keep, false);
    CountThree(x, y, z, keep, true);
    CountThree(w, y, z, keep, false);
    CountThree(w, y, z, keep, true);
    assert 100.0 * x.statements as real < 0.0;
    RatioIsNegative(x.statements, total);
  }

  lemma RatioIsNegative(covered: int, total: int)
    requires covered < 0 < total
    ensures 100.0 * covered as real / total as real < 0.0
  {
  }

  lemma CountThree(x: Block, y: Block, z: Block, keep: string -> bool, onlyCovered: bool)
    ensures Count([x, y, z], keep, onlyCovered) ==
            Weight(x, keep, onlyCovered) + Weight(y, keep, onlyCovered) + Weight(z, keep, onlyCovered)
  {
    assert [x, y, z][..2] == [x, y];
    CountTwo(x, y, keep, onlyCovered);
  }

  lemma MergeThree(x: Entry, y: Entry, z: Entry)
    requires x.key != y.key && x.key != z.key && y.key != z.key
    ensures MergeAll([x, y, z]) == map[x.key := x.block, y.key := y.block, z.key := z.block]
  {
    MergeTwo(x, y);
    MergeStep([x, y], z);
    assert [x, y, z] == [x, y] + [z];
    assert z.block.(covered := z.block.covered) == z.block;
  }

  // ---- The code ----

  /** Reads a profile; the blocks come out in whatever order the map is walked. */
  method ParseProfile(lines: seq<string>, prefix: string)
    returns (r: Result<seq<Block>, (nat, LineError)>, ghost keys: seq<string>)
    ensures r.Err? <==> Read(lines, prefix).Err?
    ensures r.Err? ==> r.error == Read(lines, prefix).error
    ensures r.Ok? ==>
              && Walks(keys, MergeAll(Read(lines, prefix).value))
              && r.value == BlocksOf(MergeAll(Read(lines, prefix).value), keys)
  {
    hide Read;
    hide MergeAll;
    keys := [];
    var merged := MergeLines(lines, prefix);
    if merged.Err? {
      return Err(merged.error), keys;
    }
    var blocks;
    blocks, keys := WalkMap(merged.value);
    return Ok(blocks), keys;
  }

  /** The loop over the lines. */
  method MergeLines(lines: seq<string>, prefix: string) returns (r: Result<map<string, Block>, (nat, LineError)>)
    ensures r.Err? <==> Read(lines, prefix).Err?
    ensures r.Err? ==> r.error == Read(lines, prefix).error
    ensures r.Ok? ==> r.value == MergeAll(Read(lines, prefix).value)
  {
    hide ParseLine;
    hide TrimLeft;
    hide TrimRight;
    hide Read;
    hide MergeAll;
    NothingRead(prefix);
    var merged: map<string, Block> := map[];
    for i := 0 to |lines|
      invariant Read(lines[..i], prefix).Ok? && merged == MergeAll(Read(lines[..i], prefix).value)
    {
      ReadStep(lines, prefix, i);
      var raw := TrimRight(TrimLeft(lines[i]));
      if raw != "" && !("mode:" <= raw) {
        var line := ParseLine(raw, prefix);
        if line.Err? {
          FirstUnreadable(lines, prefix, i);
          return Err((i + 1, line.error));
        }
        MergeStep(Read(lines[..i], prefix).value, line.value);
        var parsed := line.value.block;
        if line.value.key in merged {
          parsed := parsed.(covered := parsed.covered || merged[line.value.key].covered);
        }
        merged := merged[line.value.key := parsed];
      }
    }
    assert lines[..|lines|] == lines;
    return Ok(merged);
  }

  lemma NothingRead(prefix: string)
    ensures Read([], prefix) == Ok([]) && MergeAll([]) == map[]
  {
  }

  lemma ReadStep(lines: seq<string>, prefix: string, i: nat)
    requires i < |lines| && Read(lines[..i], prefix).Ok?
    ensures var raw := TrimRight(TrimLeft(lines[i]));
            if raw == "" || "mode:" <= raw then Read(lines[..i + 1], prefix) == Read(lines[..i], prefix)
            else
              ParseLine(raw, prefix).Ok? ==>
                Read(lines[..i + 1], prefix) == Ok(Read(lines[..i], prefix).value + [ParseLine(raw, prefix).value])
  {
    hide ParseLine;
    hide TrimLeft;
    hide TrimRight;
    assert lines[..i + 1][..i] == lines[..i];
  }

  lemma MergeStep(entries: seq<Entry>, e: Entry)
    ensures var seen := MergeAll(entries);
            MergeAll(entries + [e]) ==
            seen[e.key := e.block.(covered := e.block.covered || (e.key in seen && seen[e.key].covered))]
  {
    assert (entries + [e])[..|entries|] == entries;
  }

  /** The walk over the map. */
  method WalkMap(merged: map<string, Block>) returns (blocks: seq<Block>, ghost keys: seq<string>)
    ensures Walks(keys, merged) && blocks == BlocksOf(merged, keys)
  {
    blocks, keys := [], [];
    var left := merged.Keys;
    while left != {}
      invariant left <= merged.Keys && |blocks| == |keys|
      invariant forall key :: key in keys <==> key in merged && key !in left
      invariant forall i, j :: 0 <= i < j < |keys| ==> keys[i] != keys[j]
      invariant forall i :: 0 <= i < |keys| ==> blocks[i] == merged[keys[i]]
      decreases |left|
    {
      var key :| key in left;
      blocks := blocks + [merged[key]];
      keys := keys + [key];
      left := left - {key};
    }
  }

  lemma {:induction false} FirstUnreadable(lines: seq<string>, prefix: string, i: nat)
    requires i < |lines| && Read(lines[..i], prefix).Ok? && !IsSkipped(lines[i])
    requires ParseLine(TrimRight(TrimLeft(lines[i])), prefix).Err?
    ensures Read(lines, prefix) == Err((i + 1, ParseLine(TrimRight(TrimLeft(lines[i])), prefix).error))
    decreases |lines|
  {
    if i < |lines| - 1 {
      assert lines[..|lines| - 1][..i] == lines[..i];
      FirstUnreadable(lines[..|lines| - 1], prefix, i);
    }
  }

  /** Lines of one range always name one file, so agreement is about statement counts alone. */
  lemma {:induction false} PathsAgree(lines: seq<string>, prefix: string, e: Entry)
    requires Read(lines, prefix).Ok? && e in Read(lines, prefix).value
    ensures e.block.path == ModulePath(e.key, prefix)
  {
    if lines != [] {
      var front := Read(lines[..|lines| - 1], prefix).value;
      if e in front {
        PathsAgree(lines[..|lines| - 1], prefix, e);
      }
    }
  }
}
