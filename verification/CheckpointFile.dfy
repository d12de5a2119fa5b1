/** The checkpoint file of a tablet: one entry per key, `row col value||END||`, where a value may
    span lines, and the parser that reads it back. */
module CheckpointFile {
  import opened Text
  import opened Commands
  import opened WriteAheadLog
  import opened Writes

  function SavedEntry(key: Key, value: string): string {
    key.row + ([' '] + (key.col + ([' '] + (value + END))))
  }

  /** The batch that create_new_checkpoint writes, in the order in which it meets the bindings. */
  function SavedText(batch: seq<(Key, string)>): string {
    if batch == [] then "" else SavedEntry(batch[0].0, batch[0].1) + (['\n'] + SavedText(batch[1..]))
  }

  /** Where restore_table is between two lines. `row` and `col` keep what was read last: a failed
      extraction leaves them alone. `open` is the text of an entry that is not complete. */
  datatype Restoring = Restoring(table: Table, row: string, col: string, open: Option<string>)

  /** The string functions that the loop applies to a line. The proofs about the loop are made for
      any lawful reader; READER is the one of the servers, and ReaderIsLawful. */
  datatype Reader = Reader(
    word: (string, string) -> (string, string),
    trim: string -> string,
    cut: string -> Option<string>)

  const READER: Reader := Reader(ReadWord, TrimStart, CutValue)

  /** `stream >> word`, and what is left of the stream. */
  function ReadWord(s: string, before: string): (r: (string, string)) {
    var t := TrimStart(s);
    if t == "" then (before, "") else (Word(t), t[|Word(t)|..])
  }

  /** The text in front of the delimiter if there is one. */
  function CutValue(text: string): Option<string> {
    match Find(text, END)
    case None => None
    case Some(i) => Some(Prefix(text, i))
  }

  /** Ends the entry at the delimiter if the text has one. */
  function Collect(rd: Reader, r: Restoring, text: string): Restoring {
    match rd.cut(text)
    case None => r.(open := Some(text + ['\n']))
    case Some(value) => r.(table := r.table[Key(r.row, r.col) := value], open := None)
  }

  function RestoreLine(rd: Reader, r: Restoring, line: string): Restoring {
    match r.open
    case Some(text) => Collect(rd, r, text + line)
    case None =>
      var row := rd.word(line, r.row);
      var col := rd.word(row.1, r.col);
      Collect(rd, r.(row := row.0, col := col.0), rd.trim(col.1))
  }

  function RestoreLines(rd: Reader, r: Restoring, lines: seq<string>): Restoring
    decreases |lines|
  {
    if lines == [] then r else RestoreLines(rd, RestoreLine(rd, r, lines[0]), lines[1..])
  }

  /** restore_table into a table. */
  function Restored(rd: Reader, file: string, t: Table): Table {
    RestoreLines(rd, Restoring(t, "", "", None), Lines(file)).table
  }

  /** The loop of restore_table. */
  method RestoreTable(rd: Reader, file: string, initial: Table) returns (table: Table)
    ensures table == Restored(rd, file, initial)
  {
    var lines := Lines(file);
    table := initial;
    var row, col, value, multiLine := "", "", "", false;
    var i := 0;
    while i < |lines|
      invariant 0 <= i <= |lines|
      invariant RestoreLines(rd, Restoring(initial, "", "", None), lines) ==
                RestoreLines(rd, Restoring(table, row, col, if multiLine then Some(value) else None), lines[i..])
    {
      if !multiLine {
        var words := rd.word(lines[i], row);
        row := words.0;
        words := rd.word(words.1, col);
        col := words.0;
        value := rd.trim(words.1);
      } else {
        value := value + lines[i];
      }
      match rd.cut(value) {
        case None =>
          value := value + ['\n'];
          multiLine := true;
        case Some(text) =>
          table := table[Key(row, col) := text];
          value := "";
          multiLine := false;
      }
      i := i + 1;
    }
  }

  // ---------------------------------------------------------------- what the file can hold

  predicate GoodWord(s: string) { s != "" && NoSpace(s) }

  /** No leading white space other than a newline. */
  predicate CleanStart(value: string) { value == "" || value[0] == '\n' || !IsSpace(value[0]) }

  /** The appended delimiter is the first one. */
  predicate EndsAtDelimiter(value: string) { Find(value + END, END) == Some(|value|) }

  predicate Storable(key: Key, value: string) {
    GoodWord(key.row) && GoodWord(key.col) && CleanStart(value) && EndsAtDelimiter(value)
  }

  predicate EndsWith(s: string, tail: string) { |tail| <= |s| && s[|s| - |tail|..] == tail }

  lemma EndSuffixes(v: string, d: nat)
    requires 1 <= d <= 6 && d <= |v| && OccursAt(v + END, END, |v| - d)
    ensures v[|v| - d..] == END[..d]
    ensures forall k :: 0 <= k < 7 - d ==> END[d + k] == END[k]
  {
  }

  lemma TailMakesEarly(v: string, tail: string)
    requires tail == "||END" || tail == "||END|"
    requires EndsWith(v, tail)
    ensures OccursAt(v + END, END, |v| - |tail|)
  {
  }

  /** The delimiter overlaps itself: the appended one is the first one exactly when the value has
      none and does not end in its first five or six characters. */
  lemma DelimiterOverlaps(value: string)
    ensures EndsAtDelimiter(value) <==>
            Loggable(value) && !EndsWith(value, "||END") && !EndsWith(value, "||END|")
  {
    var s := value + END;
    FindFromFinds(s, END, 0);
    NoneIff(value);
    assert OccursAt(s, END, |value|) by { assert s[|value|..|value| + 7] == END; }
    if EndsAtDelimiter(value) {
      forall i: nat ensures !OccursAt(value, END, i) {
        if i + 7 <= |value| { OccursInPrefix(value, END, i); }
      }
      if EndsWith(value, "||END") { TailMakesEarly(value, "||END"); }
      if EndsWith(value, "||END|") { TailMakesEarly(value, "||END|"); }
    } else if Loggable(value) {
      var i := Find(s, END).value;
      LateDelimiter(value, i);
    }
  }

  lemma LateDelimiter(value: string, i: nat)
    requires Loggable(value) && OccursAt(value + END, END, i) && i < |value|
    ensures EndsWith(value, "||END") || EndsWith(value, "||END|")
    ensures i + 7 > |value|
  {
    NoneIff(value);
    if i + 7 <= |value| { OccursInPrefix(value, END, i); }
    var d := |value| - i;
    EndSuffixes(value, d);
    assert END[1] == '|' && END[2] == 'E' && END[3] == 'N' && END[4] == 'D' && END[0] == END[5] == END[6] == '|';
    assert END[d] == END[0];
    assert d <= 5 ==> END[d + 1] == END[1];
    assert "||END" == END[..5] && "||END|" == END[..6];
  }

  // ---------------------------------------------------------------- reading one entry

  lemma {:induction false} TrimBlank(s: string)
    ensures TrimStart([' '] + s) == TrimStart(s)
  {
  }

  lemma ReadGoodWord(w: string, rest: string, before: string)
    requires GoodWord(w) && (rest == "" || IsSpace(rest[0]))
    ensures ReadWord(w + rest, before) == (w, rest)
    ensures ReadWord([' '] + (w + rest), before) == (w, rest)
  {
    assert TrimStart(w + rest) == w + rest by { assert (w + rest)[0] == w[0]; }
    WordIs(w, rest);
    assert (w + rest)[|w|..] == rest;
    TrimBlank(w + rest);
  }

  /** Words are read one by one, and what follows a blank is left as it is. */
  ghost predicate ReadsWords(rd: Reader) {
    && (forall w, rest, before :: GoodWord(w) && (rest == "" || IsSpace(rest[0])) ==>
      rd.word(w + rest, before) == (w, rest) && rd.word([' '] + (w + rest), before) == (w, rest))
    && forall text :: text == "" || !IsSpace(text[0]) ==> rd.trim([' '] + text) == text
  }

  function EntryWith(key: Key, body: string): string { key.row + ([' '] + (key.col + ([' '] + body))) }

  /** The first line of an entry. */
  lemma ReadFirstLine(rd: Reader, r: Restoring, key: Key, text: string)
    requires ReadsWords(rd) && r.open == None && GoodWord(key.row) && GoodWord(key.col)
    requires text == "" || !IsSpace(text[0])
    ensures RestoreLine(rd, r, EntryWith(key, text)) == Collect(rd, r.(row := key.row, col := key.col), text)
  {
    assert rd.word(key.row + ([' '] + (key.col + ([' '] + text))), r.row).0 == key.row;
    assert rd.word([' '] + (key.col + ([' '] + text)), r.col).0 == key.col;
  }

  lemma {:induction false} RestoreOneLine(rd: Reader, r: Restoring, line: string, rest: string)
    requires '\n' !in line
    ensures RestoreLines(rd, r, Lines(line + (['\n'] + rest))) ==
            RestoreLines(rd, RestoreLine(rd, r, line), Lines(rest))
  {
    SplitFirst(line + (['\n'] + rest), line, rest, '\n');
  }

  /** The body of an entry: it is cut to the value on its last line and not before. */
  ghost predicate EndsWithLine(rd: Reader, body: string, value: string) {
    rd.cut(body) == Some(value) && forall line, rest :: body == line + (['\n'] + rest) ==> rd.cut(line) == None
  }

  function Stored(r: Restoring, value: string): Restoring {
    Restoring(r.table[Key(r.row, r.col) := value], r.row, r.col, None)
  }

  /** Inside an entry: `text` was collected, `rest` of the body is still to come. */
  lemma {:induction false} RestIsRead(
      rd: Reader, r: Restoring, text: string, rest: string, body: string, value: string, more: string)
    requires EndsWithLine(rd, body, value) && text + rest == body && r.open == Some(text)
    ensures RestoreLines(rd, r, Lines(rest + (['\n'] + more))) == RestoreLines(rd, Stored(r, value), Lines(more))
    decreases |rest|
  {
    if '\n' !in rest {
      RestoreOneLine(rd, r, rest, more);
    } else {
      var line, rest' := CutLine(rest);
      Regroup(text, line, ['\n'], rest');
      Regroup(line, ['\n'], rest', ['\n'] + more);
      assert rd.cut(text + line) == None;
      RestoreOneLine(rd, r, line, rest' + (['\n'] + more));
      RestIsRead(rd, r.(open := Some(text + line + ['\n'])), text + line + ['\n'], rest', body, value, more);
    }
  }

  /** A whole entry, whatever was read before and whatever follows. */
  lemma {:induction false} EntryIsRead(rd: Reader, r: Restoring, key: Key, body: string, value: string, more: string)
    requires ReadsWords(rd) && r.open == None && GoodWord(key.row) && GoodWord(key.col)
    requires CleanStart(body) && EndsWithLine(rd, body, value)
    ensures RestoreLines(rd, r, Lines(EntryWith(key, body) + (['\n'] + more))) ==
            RestoreLines(rd, Restoring(r.table[key := value], key.row, key.col, None), Lines(more))
  {
    GoodHasNoNewline(key);
    if '\n' !in body {
      RestoreOneLine(rd, r, EntryWith(key, body), more);
      ReadFirstLine(rd, r, key, body);
    } else {
      var line, rest := CutLine(body);
      assert rd.cut(line) == None;
      EntryLinesApart(key, line, rest, more);
      RestoreOneLine(rd, r, EntryWith(key, line), rest + (['\n'] + more));
      ReadFirstLine(rd, r, key, line);
      RestIsRead(rd, Restoring(r.table, key.row, key.col, Some(line + ['\n'])), line + ['\n'], rest, body, value, more);
    }
  }

  lemma GoodHasNoNewline(key: Key)
    requires GoodWord(key.row) && GoodWord(key.col)
    ensures '\n' !in key.row && '\n' !in key.col
  {
  }

  lemma EntryLinesApart(key: Key, line: string, rest: string, more: string)
    ensures EntryWith(key, line + (['\n'] + rest)) + (['\n'] + more) ==
            EntryWith(key, line) + (['\n'] + (rest + (['\n'] + more)))
  {
  }

  /** The delimiter that ends the value: where it is, and that its line is the last one. */
  predicate EndsAt(body: string, end: nat) {
    Find(body, END) == Some(end) && end <= |body| && forall k :: end <= k < |body| ==> body[k] != '\n'
  }

  /** The part of the body in front of one of its newlines has no delimiter. */
  lemma HeadHasNone(line: string, rest: string, body: string, end: nat)
    requires EndsAt(body, end) && body == line + (['\n'] + rest)
    ensures Loggable(line)
  {
    FindFromFinds(body, END, 0);
    NoneIff(line);
    assert body[|line|] == '\n';
    forall i: nat ensures !OccursAt(line, END, i) {
      if i + 7 <= |line| { OccursInPrefix(line, ['\n'] + rest, i); }
    }
  }

  /** An entry whose last line has the first delimiter is cut there, and none of its lines before. */
  ghost predicate CutsAtDelimiter(rd: Reader) {
    forall body, end: nat :: EndsAt(body, end) ==> EndsWithLine(rd, body, body[..end])
  }

  /** What rows, columns and values of a table are like, and the text of an entry that is open. */
  datatype Shape = Shape(row: string -> bool, col: string -> bool, value: string -> bool, text: string -> bool)

  predicate Fits(sh: Shape, r: Restoring) {
    && sh.row(r.row) && sh.col(r.col)
    && (forall k :: k in r.table ==> sh.row(k.row) && sh.col(k.col) && sh.value(r.table[k]))
    && (r.open.Some? ==> r.open.value != "" && sh.text(r.open.value))
  }

  /** The reader makes nothing of another shape. */
  ghost predicate KeepsShape(rd: Reader, sh: Shape) {
    && (forall s, before :: sh.row(before) ==> sh.row(rd.word(s, before).0))
    && (forall s, before :: sh.col(before) ==> sh.col(rd.word(s, before).0))
    && (forall s :: sh.text(rd.trim(s)))
    && (forall s, line :: sh.text(s) && s != "" ==> sh.text(s + line))
    && forall s :: sh.text(s) ==> match rd.cut(s) case None => sh.text(s + ['\n']) case Some(value) => sh.value(value)
  }

  /** Behind an entry of the given row and column. */
  function Plausible(row: string, col: string): Shape {
    Shape(w => w == row || GoodWord(w), w => w == col || GoodWord(w), v => CleanStart(v) && Loggable(v), CleanStart)
  }

  /** Where nothing is left, the variable keeps what was read before. */
  ghost predicate KeepsBefore(rd: Reader) {
    (forall before :: rd.word("", before) == (before, "")) && rd.trim("") == "" && rd.cut("") == None
  }

  ghost predicate LawfulReader(rd: Reader) {
    ReadsWords(rd) && KeepsBefore(rd) && CutsAtDelimiter(rd) && forall row, col :: KeepsShape(rd, Plausible(row, col))
  }

  // ---------------------------------------------------------------- the reader of the servers

  lemma ReaderReadsWords()
    ensures ReadsWords(READER)
  {
    forall w, rest, before | GoodWord(w) && (rest == "" || IsSpace(rest[0]))
      ensures READER.word(w + rest, before) == (w, rest) && READER.word([' '] + (w + rest), before) == (w, rest)
    {
      ReadGoodWord(w, rest, before);
    }
    forall text: string | text == "" || !IsSpace(text[0]) ensures READER.trim([' '] + text) == text {
      TrimBlank(text);
    }
  }

  lemma ReaderKeepsBefore()
    ensures KeepsBefore(READER)
  {
  }

  lemma ReaderCuts()
    ensures CutsAtDelimiter(READER)
  {
    forall body, end: nat | EndsAt(body, end) ensures EndsWithLine(READER, body, body[..end]) {
      assert Prefix(body, end) == body[..end];
      forall line, rest | body == line + (['\n'] + rest) ensures READER.cut(line) == None {
        HeadHasNone(line, rest, body, end);
      }
    }
  }

  lemma ReadWordIsGood(s: string, before: string)
    ensures ReadWord(s, before).0 == before || GoodWord(ReadWord(s, before).0)
  {
  }

  lemma CutIsPlausible(text: string)
    requires CleanStart(text)
    ensures match CutValue(text) case None => CleanStart(text + ['\n']) case Some(v) => CleanStart(v) && Loggable(v)
  {
    FindFromFinds(text, END, 0);
    match Find(text, END)
    case None =>
    case Some(i) =>
      NoneIff(text[..i]);
      forall j: nat ensures !OccursAt(text[..i], END, j) {
        if j + 7 <= i { OccursInPrefix(text[..i], text[i..], j); assert text[..i] + text[i..] == text; }
      }
  }

  lemma ReaderKeepsShape(row: string, col: string)
    ensures KeepsShape(READER, Plausible(row, col))
  {
    var sh := Plausible(row, col);
    forall s, before | sh.row(before) ensures sh.row(READER.word(s, before).0) { ReadWordIsGood(s, before); }
    forall s, before | sh.col(before) ensures sh.col(READER.word(s, before).0) { ReadWordIsGood(s, before); }
    forall s | sh.text(s)
      ensures match READER.cut(s) case None => sh.text(s + ['\n']) case Some(value) => sh.value(value)
    {
      CutIsPlausible(s);
    }
  }

  /** The string functions of the servers have all that the proofs below need. */
  lemma ReaderIsLawful()
    ensures LawfulReader(READER)
  {
    ReaderReadsWords();
    ReaderKeepsBefore();
    ReaderCuts();
    forall row, col ensures KeepsShape(READER, Plausible(row, col)) { ReaderKeepsShape(row, col); }
  }

  // ---------------------------------------------------------------- round trip

  lemma StorableEnds(rd: Reader, value: string)
    requires CutsAtDelimiter(rd) && EndsAtDelimiter(value)
    ensures EndsWithLine(rd, value + END, value)
  {
    assert EndsAt(value + END, |value|) && (value + END)[..|value|] == value;
  }

  lemma CleanWithEnd(value: string)
    requires CleanStart(value)
    ensures CleanStart(value + END)
  {
  }

  /** The bindings, one after the other. */
  function Bind(batch: seq<(Key, string)>, t: Table): Table {
    if batch == [] then t else Bind(batch[1..], t[batch[0].0 := batch[0].1])
  }

  /** The bindings of the table, each once, in whatever order the hash table has them. */
  ghost predicate IsBatch(batch: seq<(Key, string)>, t: Table) {
    && (forall i :: 0 <= i < |batch| ==> batch[i].0 in t && t[batch[i].0] == batch[i].1)
    && (forall k :: k in t ==> exists i :: 0 <= i < |batch| && batch[i].0 == k)
    && forall i, j :: 0 <= i < j < |batch| ==> batch[i].0 != batch[j].0
  }

  /** Bindings that agree with a table, bound over a part of it, give the table's bindings. */
  lemma {:induction false} Bound(batch: seq<(Key, string)>, t: Table, u: Table, k: Key)
    requires forall i :: 0 <= i < |batch| ==> batch[i].0 in t && t[batch[i].0] == batch[i].1
    requires Lookup(u, k) == Lookup(t, k) || exists i :: 0 <= i < |batch| && batch[i].0 == k
    ensures Lookup(Bind(batch, u), k) == Lookup(t, k)
    decreases |batch|
  {
    if batch != [] {
      assert batch[0].0 == k ==> t[k] == batch[0].1;
      Bound(batch[1..], t, u[batch[0].0 := batch[0].1], k);
    }
  }

  predicate AllStorable(t: Table) { forall k :: k in t ==> Storable(k, t[k]) }

  /** What storing a binding takes, told by the reader. */
  ghost predicate Kept(rd: Reader, key: Key, value: string) {
    GoodWord(key.row) && GoodWord(key.col) && CleanStart(value + END) && EndsWithLine(rd, value + END, value)
  }

  lemma StorableIsKept(rd: Reader, key: Key, value: string)
    requires CutsAtDelimiter(rd) && Storable(key, value)
    ensures Kept(rd, key, value)
  {
    StorableEnds(rd, value);
    CleanWithEnd(value);
  }

  lemma {:induction false} SavedIsRead(rd: Reader, r: Restoring, batch: seq<(Key, string)>)
    requires ReadsWords(rd) && r.open == None
    requires forall i :: 0 <= i < |batch| ==> Kept(rd, batch[i].0, batch[i].1)
    ensures RestoreLines(rd, r, Lines(SavedText(batch))).table == Bind(batch, r.table)
    decreases |batch|
  {
    if batch != [] {
      var key, value := batch[0].0, batch[0].1;
      assert Kept(rd, key, value);
      EntryIsRead(rd, r, key, value + END, value, SavedText(batch[1..]));
      SavedIsRead(rd, Restoring(r.table[key := value], key.row, key.col, None), batch[1..]);
    }
  }

  lemma {:induction false} BoundOverNothing(batch: seq<(Key, string)>, t: Table)
    requires IsBatch(batch, t)
    ensures Bind(batch, map[]) == t
  {
    forall k ensures Lookup(Bind(batch, map[]), k) == Lookup(t, k) {
      Bound(batch, t, map[], k);
    }
    SameTable(Bind(batch, map[]), t);
  }

  /** Checkpoint file round trip: restoring what was written gives back the table, in whatever
      order its bindings were written, over an empty table. */
  lemma {:induction false} CheckpointRoundTrip(rd: Reader, batch: seq<(Key, string)>, t: Table)
    requires LawfulReader(rd) && IsBatch(batch, t) && AllStorable(t)
    ensures Restored(rd, SavedText(batch), map[]) == t
  {
    forall i | 0 <= i < |batch| ensures Kept(rd, batch[i].0, batch[i].1) {
      StorableIsKept(rd, batch[i].0, batch[i].1);
    }
    SavedIsRead(rd, Restoring(map[], "", "", None), batch);
    BoundOverNothing(batch, t);
  }

  // ---------------------------------------------------------------- what cannot be stored

  lemma CollectFits(rd: Reader, sh: Shape, r: Restoring, text: string)
    requires KeepsShape(rd, sh) && Fits(sh, r.(open := None)) && sh.text(text)
    ensures Fits(sh, Collect(rd, r, text))
  {
  }

  lemma {:induction false} LinesFit(rd: Reader, sh: Shape, r: Restoring, lines: seq<string>)
    requires KeepsShape(rd, sh) && Fits(sh, r)
    ensures Fits(sh, RestoreLines(rd, r, lines))
    decreases |lines|
  {
    if lines != [] {
      match r.open {
        case Some(text) => CollectFits(rd, sh, r, text + lines[0]);
        case None =>
          var row := rd.word(lines[0], r.row);
          var col := rd.word(row.1, r.col);
          CollectFits(rd, sh, r.(row := row.0, col := col.0), rd.trim(col.1));
      }
      LinesFit(rd, sh, RestoreLine(rd, r, lines[0]), lines[1..]);
    }
  }

  /** The entry of one key, read into an empty table behind an entry of the given row and column. */
  function ReadBack(rd: Reader, key: Key, value: string, row: string, col: string): Table {
    RestoreLines(rd, Restoring(map[], row, col, None), Lines(EntryWith(key, value + END) + ['\n'])).table
  }

  lemma ReadBackFits(rd: Reader, sh: Shape, key: Key, value: string, row: string, col: string)
    requires KeepsShape(rd, sh) && sh.row(row) && sh.col(col)
    requires ReadBack(rd, key, value, row, col) == map[key := value]
    ensures sh.row(key.row) && sh.col(key.col) && sh.value(value)
  {
    LinesFit(rd, sh, Restoring(map[], row, col, None), Lines(EntryWith(key, value + END) + ['\n']));
    assert key in map[key := value] && map[key := value][key] == value;
  }

  lemma ReadBackCuts(rd: Reader, key: Key, value: string, cut: string, row: string, col: string)
    requires ReadsWords(rd) && GoodWord(key.row) && GoodWord(key.col)
    requires CleanStart(value + END) && EndsWithLine(rd, value + END, cut)
    ensures ReadBack(rd, key, value, row, col) == map[key := cut]
  {
    var text := EntryWith(key, value + END);
    assert text + ['\n'] == text + (['\n'] + "");
    EntryIsRead(rd, Restoring(map[], row, col, None), key, value + END, cut, "");
  }

  lemma {:induction false} OverlapEndsEarly(value: string) returns (end: nat)
    requires Loggable(value) && !EndsAtDelimiter(value)
    ensures EndsAt(value + END, end) && end < |value|
  {
    FirstDelimiter(value);
    end := Find(value + END, END).value;
    LateDelimiter(value, end);
    InsideDelimiters(value, end);
  }

  lemma FirstDelimiter(value: string)
    ensures Find(value + END, END).Some? && Find(value + END, END).value <= |value|
    ensures OccursAt(value + END, END, Find(value + END, END).value)
  {
    FindFromFinds(value + END, END, 0);
    assert OccursAt(value + END, END, |value|) by { assert (value + END)[|value|..|value| + 7] == END; }
  }

  lemma InsideDelimiters(value: string, end: nat)
    requires OccursAt(value + END, END, end) && end < |value| < end + 7
    ensures forall k :: end <= k < |value + END| ==> (value + END)[k] != '\n'
  {
  }

  /** The binding survives, whatever entry was read before it. */
  ghost predicate ReadsBack(rd: Reader, key: Key, value: string) {
    forall row, col :: ReadBack(rd, key, value, row, col) == map[key := value]
  }

  lemma KeptReadsBack(rd: Reader, key: Key, value: string)
    requires ReadsWords(rd) && Kept(rd, key, value)
    ensures ReadsBack(rd, key, value)
  {
    forall row, col ensures ReadBack(rd, key, value, row, col) == map[key := value] {
      ReadBackCuts(rd, key, value, value, row, col);
    }
  }

  /** Read back behind an entry of another row and column. */
  lemma ReadBackIsPlausible(rd: Reader, key: Key, value: string)
    requires LawfulReader(rd) && ReadsBack(rd, key, value)
    ensures GoodWord(key.row) && GoodWord(key.col) && CleanStart(value) && Loggable(value)
  {
    var row, col := key.row + "x", key.col + "x";
    assert ReadBack(rd, key, value, row, col) == map[key := value];
    ReadBackFits(rd, Plausible(row, col), key, value, row, col);
  }

  /** A value that ends inside the delimiter comes back cut. */
  lemma OverlapIsCut(rd: Reader, key: Key, value: string)
    requires LawfulReader(rd) && GoodWord(key.row) && GoodWord(key.col)
    requires CleanStart(value) && Loggable(value) && !EndsAtDelimiter(value)
    ensures !ReadsBack(rd, key, value)
  {
    var end := OverlapEndsEarly(value);
    var cut := (value + END)[..end];
    CleanWithEnd(value);
    ReadBackCuts(rd, key, value, cut, "", "");
    assert map[key := cut][key] == cut && map[key := value][key] == value;
  }

  /** A binding survives, whatever entry was read before it, if and only if row and column are
      non-empty and free of white space, the value does not start with white space other than a
      newline, has no delimiter and does not end in one's first five or six characters. */
  lemma EntryRoundTripIff(rd: Reader, key: Key, value: string)
    requires LawfulReader(rd)
    ensures ReadsBack(rd, key, value) <==> Storable(key, value)
  {
    if Storable(key, value) {
      StorableIsKept(rd, key, value);
      KeptReadsBack(rd, key, value);
    } else if ReadsBack(rd, key, value) {
      ReadBackIsPlausible(rd, key, value);
      OverlapIsCut(rd, key, value);
    }
  }

  lemma AsOneText(key: Key, value: string, more: string)
    ensures EntryWith(key, value + END) == EntryWith(key, value) + END
    ensures ['\n'] + (EntryWith(key, value) + END) == (['\n'] + EntryWith(key, value)) + END
    ensures "" + (['\n'] + more) == ['\n'] + more
  {
  }

  /** A blank line is taken for the beginning of an entry of the row and column read last: the text of
      the entry behind it is stored under that key, and its own key stays as it was. */
  lemma {:induction false} BlankLineMisfiles(rd: Reader, r: Restoring, key: Key, value: string, more: string)
    requires LawfulReader(rd) && r.open == None && EndsAtDelimiter(['\n'] + EntryWith(key, value))
    ensures RestoreLines(rd, r, Lines(['\n'] + (EntryWith(key, value + END) + (['\n'] + more)))) ==
            RestoreLines(rd, Stored(r, ['\n'] + EntryWith(key, value)), Lines(more))
  {
    var rest, text := EntryWith(key, value + END), ['\n'] + EntryWith(key, value);
    AsOneText(key, value, rest + (['\n'] + more));
    StorableEnds(rd, text);
    RestoreOneLine(rd, r, "", rest + (['\n'] + more));
    BlankLine(rd, r);
    RestIsRead(rd, r.(open := Some(['\n'])), ['\n'], rest, text + END, text, more);
  }

  lemma BlankLine(rd: Reader, r: Restoring)
    requires KeepsBefore(rd) && r.open == None
    ensures RestoreLine(rd, r, "") == r.(open := Some(['\n']))
  {
    assert "" + ['\n'] == ['\n'];
  }
}
