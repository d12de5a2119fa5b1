/** The two interpreters of write commands: `Execute` runs a committed command on the
    live table, `Replay` re-reads a logged one. They cut the command text differently;
    the lemmas below say exactly when they have the same effect. */
module Commands {
  import opened Text

  datatype Key = Key(row: string, col: string)
  type Table = map<Key, string>

  /** s.substr(0, s.find(' ')): a missing blank selects everything. */
  function UpToBlank(s: string): string {
    FindCharFinds(s, ' ');
    match FindChar(s, ' ')
    case None => s
    case Some(i) => s[..i]
  }

  /** s.substr(s.find(' ') + 1): a missing blank wraps to position 0, everything again. */
  function AfterBlank(s: string): string {
    FindCharFinds(s, ' ');
    match FindChar(s, ' ')
    case None => s
    case Some(i) => s[i + 1..]
  }

  lemma Cut(s: string)
    ensures ' ' !in UpToBlank(s)
    ensures ' ' in s ==> s == UpToBlank(s) + " " + AfterBlank(s)
    ensures ' ' !in s ==> UpToBlank(s) == AfterBlank(s) == s
  {
    FindCharFinds(s, ' ');
  }

  lemma {:induction false} SplitCut(s: string)
    ensures s == "" ==> Split(s, ' ') == []
    ensures s != "" ==> Split(s, ' ') == [UpToBlank(s)] + if ' ' in s then Split(AfterBlank(s), ' ') else []
  {
    FindCharFinds(s, ' ');
  }

  /** s.substr(s.find(old) + old.size() + 1); None is the uncaught std::out_of_range.
      A missing `old` wraps: npos + old.size() + 1 is old.size(). */
  function TailAfter(s: string, old_: string): (r: Option<string>)
    ensures r.Some? ==> |r.value| <= |s| && r.value == s[|s| - |r.value|..]
  {
    var pos := match Find(s, old_) case Some(i) => i + |old_| + 1 case None => |old_|;
    if pos <= |s| then Some(s[pos..]) else None
  }

  /** Stores the value unless computing it threw. */
  function UpdateIf(t: Table, key: Key, v: Option<string>): Option<Table> {
    match v
    case None => None
    case Some(value) => Some(t[key := value])
  }

  function Row(command: string): string { UpToBlank(AfterBlank(command)) }
  function ColumnAndRest(command: string): string { AfterBlank(AfterBlank(command)) }
  function Column(command: string): string { UpToBlank(ColumnAndRest(command)) }
  function Values(command: string): string { AfterBlank(ColumnAndRest(command)) }

  /** The key that execute_command and get_command_locks use: tokens 1 and 2. */
  function LockKey(command: string): Option<Key> {
    var tokens := Split(command, ' ');
    if |tokens| < 3 then None else Some(Key(tokens[1], tokens[2]))
  }

  /** The key whose lock the ABORT branch releases: cut with find and substr, so it
      exists for every text. */
  function AbortKey(command: string): Key {
    Key(Row(command), Column(command))
  }

  /** The verbs whose branch in execute_command ends with an unlock. */
  predicate ReleasesLock(command: string) {
    var tokens := Split(command, ' ');
    |tokens| >= 3 && tokens[0] in {"PUT", "CPUT", "DELETE"}
  }

  /** execute_command. */
  function Execute(command: string, t: Table): Option<Table> {
    var tokens := Split(command, ' ');
    if |tokens| < 3 then None
    else
      var key := Key(tokens[1], tokens[2]);
      if tokens[0] == "PUT" then Some(t[key := Join(tokens[3..])])
      else if tokens[0] == "CPUT" then
        UpdateIf(t, key, TailAfter(command, if key in t then t[key] else ""))
      else if tokens[0] == "DELETE" then Some(t - {key})
      else Some(t)
  }

  /** parsing_logic, on a tablet that is in memory. */
  function Replay(message: string, t: Table): Option<Table> {
    var rcv := AfterBlank(message);
    if ' ' !in message || ' ' !in rcv then Some(t)
    else
      var key := Key(Row(message), Column(message));
      if Prefix(message, 3) == "PUT" then Some(t[key := Values(message)])
      else if Prefix(message, 4) == "CPUT" then
        if key !in t then Some(t)
        else UpdateIf(t, key, TailAfter(Values(message), t[key]))
      else if Prefix(message, 6) == "DELETE" then
        Some(t - {Key(Row(message), ColumnAndRest(message))})
      else Some(t)
  }

  function ReplayAll(messages: seq<string>, t: Table): Option<Table> {
    if messages == [] then Some(t)
    else match Replay(messages[0], t)
      case None => None
      case Some(u) => ReplayAll(messages[1..], u)
  }

  // ---------------------------------------------------------------- shape of a command

  /** Three tokens: both ways of cutting see the same verb, row and column. */
  lemma {:induction false} TokensOf(command: string)
    requires |Split(command, ' ')| >= 3
    ensures ' ' in command && ' ' in AfterBlank(command) && ColumnAndRest(command) != ""
    ensures command == UpToBlank(command) + " " + AfterBlank(command)
    ensures AfterBlank(command) == Row(command) + " " + ColumnAndRest(command)
    ensures Split(command, ' ')[0] == UpToBlank(command)
    ensures Split(command, ' ')[1] == Row(command)
    ensures Split(command, ' ')[2] == Column(command)
    ensures Split(command, ' ')[3..] ==
            if ' ' in ColumnAndRest(command) then Split(Values(command), ' ') else []
  {
    ThreeTokens(command, AfterBlank(command), ColumnAndRest(command));
    Cut(command);
    Cut(AfterBlank(command));
  }

  lemma {:induction false} ThreeTokens(s: string, s1: string, s2: string)
    requires |Split(s, ' ')| >= 3 && s1 == AfterBlank(s) && s2 == AfterBlank(s1)
    ensures ' ' in s && ' ' in s1 && s2 != ""
    ensures Split(s, ' ') ==
            [UpToBlank(s), UpToBlank(s1), UpToBlank(s2)] + if ' ' in s2 then Split(AfterBlank(s2), ' ') else []
  {
    MoreTokens(s, 2);
    MoreTokens(s1, 1);
    SplitCut(s2);
    Three(UpToBlank(s), UpToBlank(s1), UpToBlank(s2), if ' ' in s2 then Split(AfterBlank(s2), ' ') else []);
  }

  lemma Three(a: string, b: string, c: string, rest: seq<string>)
    ensures [a] + ([b] + ([c] + rest)) == [a, b, c] + rest
  {
  }

  /** Behind the first of several tokens the others are left. */
  lemma {:induction false} MoreTokens(s: string, n: nat)
    requires |Split(s, ' ')| > n >= 1
    ensures ' ' in s && Split(s, ' ') == [UpToBlank(s)] + Split(AfterBlank(s), ' ') && |Split(AfterBlank(s), ' ')| >= n
  {
    SplitCut(s);
  }

  /** The ABORT branch finds the key that was locked. */
  lemma AbortKeyIsLockKey(command: string)
    requires LockKey(command).Some?
    ensures LockKey(command) == Some(AbortKey(command))
  {
    TokensOf(command);
  }

  /** A refused command still releases a lock: "PUT a" unlocks the row lock of (a, a). */
  lemma MalformedAbortKey(word: string)
    requires ' ' !in word && word != ""
    ensures LockKey("PUT " + word) == None
    ensures AbortKey("PUT " + word) == Key(word, word)
  {
    var command := "PUT " + word;
    assert command == "PUT" + ([' '] + word);
    SplitFirst(command, "PUT", word, ' ');
    SplitLast(word, ' ');
    FindCharIs("PUT", ' ', word);
    assert AfterBlank(command) == word;
    Cut(word);
  }

  function PutText(row: string, col: string, value: string): string {
    "PUT" + ([' '] + (row + ([' '] + (col + ([' '] + value)))))
  }

  /** A PUT of blank-free row and column locks that key. */
  lemma PutTextKey(row: string, col: string, value: string)
    requires ' ' !in row && ' ' !in col && value != ""
    ensures LockKey(PutText(row, col, value)) == Some(Key(row, col))
    ensures ReleasesLock(PutText(row, col, value)) && forall t :: Execute(PutText(row, col, value), t).Some?
  {
    var rest := col + ([' '] + value);
    SplitFirst(PutText(row, col, value), "PUT", row + ([' '] + rest), ' ');
    SplitFirst(row + ([' '] + rest), row, rest, ' ');
    SplitFirst(rest, col, value, ' ');
    assert Split(PutText(row, col, value), ' ') == ["PUT", row, col] + Split(value, ' ');
  }

  // ---------------------------------------------------------------- agreement

  predicate EndsInBlank(s: string) {
    s != "" && s[|s| - 1] == ' '
  }

  /** The value that execution stores: the text after the column less one trailing blank. */
  function ExecutedValue(command: string): string {
    if ' ' !in ColumnAndRest(command) then ""
    else DropLastBlank(Values(command))
  }

  /** What execution does, in terms of the pieces that replay cuts. */
  lemma ExecutePut(command: string, t: Table)
    requires LockKey(command).Some? && UpToBlank(command) == "PUT"
    ensures Execute(command, t) == Some(t[AbortKey(command) := ExecutedValue(command)])
  {
    TokensOf(command);
    JoinSplit(Values(command));
    assert Join(Split(command, ' ')[3..]) == ExecutedValue(command);
  }

  lemma ExecuteDelete(command: string, t: Table)
    requires LockKey(command).Some? && UpToBlank(command) == "DELETE"
    ensures Execute(command, t) == Some(t - {AbortKey(command)})
  {
    TokensOf(command);
  }

  lemma ExecuteOther(command: string, t: Table)
    requires LockKey(command).Some? && UpToBlank(command) !in {"PUT", "CPUT", "DELETE"}
    ensures Execute(command, t) == Some(t) && !ReleasesLock(command)
  {
  }

  lemma VerbPrefix(command: string, n: nat)
    requires LockKey(command).Some? && n <= |UpToBlank(command)|
    ensures Prefix(command, n) == UpToBlank(command)[..n]
    ensures ' ' in command && ' ' in AfterBlank(command)
  {
    ThreeTokens(command, AfterBlank(command), ColumnAndRest(command));
    Cut(command);
    PrefixOfCut(command, UpToBlank(command), AfterBlank(command), n);
  }

  lemma PrefixOfCut(s: string, head: string, rest: string, n: nat)
    requires s == head + " " + rest && n <= |head|
    ensures Prefix(s, n) == head[..n]
  {
  }

  lemma ReplayPut(command: string, t: Table)
    requires LockKey(command).Some? && Prefix(UpToBlank(command), 3) == "PUT"
    ensures Replay(command, t) == Some(t[AbortKey(command) := Values(command)])
  {
    assert |Prefix(UpToBlank(command), 3)| == 3;
    VerbPrefix(command, 3);
  }

  lemma ReplayDelete(command: string, t: Table)
    requires LockKey(command).Some? && UpToBlank(command) == "DELETE"
    ensures Replay(command, t) == Some(t - {Key(Row(command), ColumnAndRest(command))})
  {
    VerbPrefix(command, 3);
    VerbPrefix(command, 4);
    VerbPrefix(command, 6);
    assert "DELETE"[..3] == "DEL" && "DELETE"[..4] == "DELE" && "DELETE"[..6] == "DELETE";
  }

  lemma ReplayCput(command: string, t: Table)
    requires LockKey(command).Some? && UpToBlank(command) == "CPUT"
    requires AbortKey(command) in t
    ensures Replay(command, t) ==
      UpdateIf(t, AbortKey(command), TailAfter(Values(command), t[AbortKey(command)]))
  {
    VerbPrefix(command, 3);
    VerbPrefix(command, 4);
    assert "CPUT"[..3] == "CPU" && "CPUT"[..4] == "CPUT";
  }

  /** PUT has the same effect executed and replayed exactly when a value follows the
      column and does not end in a blank. */
  lemma PutAgreesIff(command: string, t: Table)
    requires LockKey(command).Some? && UpToBlank(command) == "PUT"
    ensures Execute(command, t) == Replay(command, t) <==>
            ' ' in ColumnAndRest(command) && !EndsInBlank(Values(command))
  {
    ExecutePut(command, t);
    ReplayPut(command, t);
    TokensOf(command);
    Cut(ColumnAndRest(command));
    assert Execute(command, t).value[AbortKey(command)] == ExecutedValue(command);
    assert Replay(command, t).value[AbortKey(command)] == Values(command);
  }

  /** DELETE agrees on a table exactly when nothing follows the column, or neither of
      the two keys is present. */
  lemma DeleteAgreesIff(command: string, t: Table)
    requires LockKey(command).Some? && UpToBlank(command) == "DELETE"
    ensures Execute(command, t) == Replay(command, t) <==>
            (' ' !in ColumnAndRest(command) ||
             (AbortKey(command) !in t && Key(Row(command), ColumnAndRest(command)) !in t))
  {
    var k1, k2 := AbortKey(command), Key(Row(command), ColumnAndRest(command));
    ExecuteDelete(command, t);
    ReplayDelete(command, t);
    Cut(ColumnAndRest(command));
    RemovalsAgreeIff(t, k1, k2);
  }

  lemma RemovalsAgreeIff(t: Table, k1: Key, k2: Key)
    ensures t - {k1} == t - {k2} <==> k1 == k2 || (k1 !in t && k2 !in t)
  {
    if k1 !in t && k2 !in t {
      assert t - {k1} == t == t - {k2};
    } else if k1 != k2 {
      assert k1 in t - {k2} || k2 in t - {k1};
    }
  }

  lemma OccursInTail(s: string, off: nat, pat: string, i: nat)
    requires off <= |s|
    ensures OccursAt(s[off..], pat, i) <==> OccursAt(s, pat, off + i)
  {
  }

  /** If the pattern occurs in a suffix, it occurs in the whole text, and the first
      occurrence there is the suffix's first one unless it is before the suffix. */
  lemma FindInTail(s: string, off: nat, pat: string)
    requires off <= |s| && Find(s[off..], pat).Some?
    ensures Find(s, pat).Some?
    ensures Find(s, pat).value >= off ==> Find(s, pat).value == off + Find(s[off..], pat).value
  {
    FindFromFinds(s[off..], pat, 0);
    FindFromFinds(s, pat, 0);
    OccursInTail(s, off, pat, Find(s[off..], pat).value);
    if Find(s, pat).value >= off { OccursInTail(s, off, pat, Find(s, pat).value - off); }
  }

  /** Cutting s behind the first `old_`, or behind as many characters where there is none. */
  function TailStart(s: string, old_: string): nat {
    match Find(s, old_) case Some(i) => i + |old_| + 1 case None => |old_|
  }

  /** Two tails of one text are the same if they start at one place, or if both are out of range. */
  lemma SameTailIff(s: string, off: nat, old_: string)
    requires off <= |s|
    ensures TailAfter(s, old_) == TailAfter(s[off..], old_) <==>
            TailStart(s, old_) == off + TailStart(s[off..], old_) ||
            (TailStart(s, old_) > |s| && off + TailStart(s[off..], old_) > |s|)
  {
    var i, j := TailStart(s, old_), off + TailStart(s[off..], old_);
    if i <= |s| && j <= |s| { assert s[off..][TailStart(s[off..], old_)..] == s[j..]; }
  }

  /** When searching a text and a proper suffix of it lead to the same tail: in the suffix the old
      value is found and in the text not before it; or it is found only in front of the suffix, at the
      very character before it or at the end of the text, where both are out of range; or it is
      nowhere and longer than the text. */
  predicate TailsAgree(s: string, off: nat, old_: string)
    requires off <= |s|
  {
    match Find(s, old_)
    case Some(i) => i >= off || (Find(s[off..], old_).None? && (i + 1 == off || i + |old_| == |s|))
    case None => |old_| > |s|
  }

  lemma TailsAgreeIff(s: string, off: nat, old_: string)
    requires 0 < off <= |s|
    ensures TailAfter(s, old_) == TailAfter(s[off..], old_) <==> TailsAgree(s, off, old_)
  {
    SameTailIff(s, off, old_);
    FindFromFinds(s[off..], old_, 0);
    FindFromFinds(s, old_, 0);
    if Find(s[off..], old_).Some? {
      FindInTail(s, off, old_);
    } else if Find(s, old_).Some? && Find(s, old_).value >= off {
      OccursInTail(s, off, old_, Find(s, old_).value - off);
    }
  }

  /** What CPUT compares with when executed: operator[] binds a missing key to the empty string. */
  function OldValue(command: string, t: Table): string {
    if AbortKey(command) in t then t[AbortKey(command)] else ""
  }

  lemma ExecuteCput(command: string, t: Table)
    requires LockKey(command).Some? && UpToBlank(command) == "CPUT"
    ensures Execute(command, t) == UpdateIf(t, AbortKey(command), TailAfter(command, OldValue(command, t)))
  {
    TokensOf(command);
  }

  lemma ReplayCputUnbound(command: string, t: Table)
    requires LockKey(command).Some? && UpToBlank(command) == "CPUT"
    requires AbortKey(command) !in t
    ensures Replay(command, t) == Some(t)
  {
    VerbPrefix(command, 3);
    VerbPrefix(command, 4);
    assert "CPUT"[..3] == "CPU" && "CPUT"[..4] == "CPUT";
  }

  lemma AfterIsSuffix(s: string)
    ensures |AfterBlank(s)| <= |s| && AfterBlank(s) == s[|s| - |AfterBlank(s)|..]
    ensures ' ' in s ==> |AfterBlank(s)| < |s|
  {
    FindCharFinds(s, ' ');
  }

  lemma ValuesAreSuffix(command: string)
    requires ' ' in command
    ensures |Values(command)| < |command|
    ensures Values(command) == command[|command| - |Values(command)|..]
  {
    AfterIsSuffix(command);
    AfterIsSuffix(AfterBlank(command));
    AfterIsSuffix(ColumnAndRest(command));
  }

  /** CPUT, whatever the table: execution searches the whole command and binds a missing key, replay
      searches only the values and ignores a missing key. They agree exactly when the key is bound and
      its value, searched in the command and in the values, leads to one tail. */
  lemma CputAgreesIff(command: string, t: Table)
    requires LockKey(command).Some? && UpToBlank(command) == "CPUT"
    ensures |Values(command)| <= |command|
    ensures Execute(command, t) == Replay(command, t) <==>
            AbortKey(command) in t && TailsAgree(command, |command| - |Values(command)|, t[AbortKey(command)])
  {
    TokensOf(command);
    ValuesAreSuffix(command);
    ExecuteCput(command, t);
    if AbortKey(command) in t {
      TailsAgreeIff(command, |command| - |Values(command)|, t[AbortKey(command)]);
      ReplayCput(command, t);
      UpdatesAgreeIff(t, AbortKey(command), TailAfter(command, t[AbortKey(command)]),
                      TailAfter(Values(command), t[AbortKey(command)]));
    } else {
      ReplayCputUnbound(command, t);
      BoundOrThrows(t, AbortKey(command), TailAfter(command, ""));
    }
  }

  /** `old` is longer than the text, or ends it and does not occur earlier. */
  ghost predicate NoTail(s: string, old_: string) { |old_| > |s| || FirstAt(s, old_, |s| - |old_|) }

  ghost predicate FirstAt(s: string, pat: string, i: nat) {
    OccursAt(s, pat, i) && forall j: nat :: j < i ==> !OccursAt(s, pat, j)
  }

  lemma NoTailIff(s: string, old_: string)
    ensures TailAfter(s, old_) == None <==> NoTail(s, old_)
  {
    FindIsFirst(s, old_, |s| - |old_|);
    NoRoomIff(s, old_, Find(s, old_));
  }

  lemma NoRoomIff(s: string, old_: string, found: Option<nat>)
    requires found.Some? ==> found.value + |old_| <= |s|
    requires |old_| <= |s| ==> (found == Some(|s| - |old_|) <==> FirstAt(s, old_, |s| - |old_|))
    ensures var pos := match found case Some(i) => i + |old_| + 1 case None => |old_|; pos > |s| <==> NoTail(s, old_)
  {
  }

  lemma FindIsFirst(s: string, pat: string, i: int)
    ensures Find(s, pat).Some? ==> Find(s, pat).value + |pat| <= |s|
    ensures i >= 0 ==> (Find(s, pat) == Some(i) <==> FirstAt(s, pat, i))
  {
    FindFromFinds(s, pat, 0);
    if i >= 0 && FirstAt(s, pat, i) && Find(s, pat).Some? {
      var k := Find(s, pat).value;
      assert OccursAt(s, pat, k);
    }
  }

  /** Executing throws exactly at a text of fewer than three tokens, and at a CPUT whose old value has
      no tail in the whole command. */
  lemma ExecuteThrowsIff(command: string, t: Table)
    ensures Execute(command, t) == None <==>
            LockKey(command) == None || (UpToBlank(command) == "CPUT" && NoTail(command, OldValue(command, t)))
  {
    if LockKey(command).Some? {
      TokensOf(command);
      NoTailIff(command, OldValue(command, t));
      if UpToBlank(command) == "CPUT" { ExecuteCput(command, t); }
    }
  }

  /** Replaying throws exactly at a CPUT of a bound key whose value has no tail in the values. */
  lemma ReplayThrowsIff(message: string, t: Table)
    ensures Replay(message, t) == None <==>
            && ' ' in message && ' ' in AfterBlank(message) && Prefix(message, 4) == "CPUT"
            && AbortKey(message) in t && NoTail(Values(message), t[AbortKey(message)])
  {
    if AbortKey(message) in t { NoTailIff(Values(message), t[AbortKey(message)]); }
    if Prefix(message, 4) == "CPUT" { assert Prefix(message, 3)[0] == message[0] == 'C' && "PUT"[0] == 'P'; }
  }

  lemma BoundOrThrows(t: Table, key: Key, v: Option<string>)
    requires key !in t
    ensures UpdateIf(t, key, v) != Some(t)
  {
    if v.Some? { assert key in t[key := v.value]; }
  }

  lemma UpdatesAgreeIff(t: Table, key: Key, v1: Option<string>, v2: Option<string>)
    ensures UpdateIf(t, key, v1) == UpdateIf(t, key, v2) <==> v1 == v2
  {
    if v1.Some? && v2.Some? {
      assert t[key := v1.value][key] == v1.value && t[key := v2.value][key] == v2.value;
    }
  }

  /** The dispatcher admits any verb that starts with PUT; execution ignores it (and
      keeps its row lock) while replay performs it. */
  lemma PutPrefixDiverges(command: string, t: Table)
    requires LockKey(command).Some?
    requires Prefix(UpToBlank(command), 3) == "PUT" && UpToBlank(command) != "PUT"
    ensures Execute(command, t) == Some(t) && !ReleasesLock(command)
    ensures Replay(command, t) == Some(t[AbortKey(command) := Values(command)])
  {
    ReplayPut(command, t);
    assert UpToBlank(command)[0] == 'P' by { assert Prefix(UpToBlank(command), 3)[0] == 'P'; }
    ExecuteOther(command, t);
  }

  ghost predicate CanChange(command: string) {
    exists t, u: Table :: u != t && Execute(command, t) == Some(u)
  }

  /** A commit gives the row lock back exactly when its command can change a table. */
  lemma ReleasesIffChanges(command: string)
    ensures ReleasesLock(command) <==> CanChange(command)
  {
    if LockKey(command).Some? {
      TokensOf(command);
      var key, verb := LockKey(command).value, Split(command, ' ')[0];
      if verb == "DELETE" {
        ChangesBound(command, key);
      } else if verb in {"PUT", "CPUT"} {
        ChangesEmpty(command, key);
      } else {
        forall t: Table ensures Execute(command, t) == Some(t) { ExecuteOther(command, t); }
      }
    }
  }

  lemma {:induction false} ChangesBound(command: string, key: Key)
    requires LockKey(command) == Some(key) && Split(command, ' ')[0] == "DELETE"
    ensures CanChange(command)
  {
    var t: Table := map[key := ""];
    assert key in t && Execute(command, t) == Some(t - {key});
  }

  lemma {:induction false} ChangesEmpty(command: string, key: Key)
    requires LockKey(command) == Some(key) && Split(command, ' ')[0] in {"PUT", "CPUT"}
    ensures CanChange(command)
  {
    assert command != "";
    assert TailAfter(command, "") == Some(command[1..]);
    var value := if Split(command, ' ')[0] == "PUT" then Join(Split(command, ' ')[3..]) else command[1..];
    var u: Table := map[key := value];
    assert key in u && u != map[] && Execute(command, map[]) == Some(u);
  }

  predicate SameExcept(t: Table, u: Table, key: Key) { t - {key} == u - {key} }

  /** Execution changes nothing but the key whose row lock is held, whatever the verb. */
  lemma ExecuteStaysInLock(command: string, t: Table)
    requires Execute(command, t).Some?
    ensures LockKey(command).Some? && SameExcept(t, Execute(command, t).value, LockKey(command).value)
  {
    var key, u := LockKey(command).value, Execute(command, t).value;
    assert forall k :: k != key ==> (k in t <==> k in u) && (k in t ==> t[k] == u[k]);
    assert (t - {key}).Keys == (u - {key}).Keys;
  }

  /** Replay changes nothing but the key of the message; a DELETE takes the whole rest as the column.
      Anything but the three verbs, and a text without two blanks, changes nothing. */
  lemma ReplayStaysAtKey(message: string, t: Table)
    requires Replay(message, t).Some?
    ensures var u, deletes := Replay(message, t).value, Prefix(message, 6) == "DELETE";
      && SameExcept(t, u, Key(Row(message), if deletes then ColumnAndRest(message) else Column(message)))
      && (u != t ==> ' ' in AfterBlank(message) &&
                     (Prefix(message, 3) == "PUT" || Prefix(message, 4) == "CPUT" || deletes))
  {
    var u, deletes := Replay(message, t).value, Prefix(message, 6) == "DELETE";
    var key := Key(Row(message), if deletes then ColumnAndRest(message) else Column(message));
    if deletes {
      assert message[0] == 'D' && "PUT"[0] == 'P' && "CPUT"[0] == 'C';
      assert Prefix(message, 3) != "PUT" && Prefix(message, 4) != "CPUT" by {
        assert Prefix(message, 3)[0] == 'D' && Prefix(message, 4)[0] == 'D';
      }
    }
    assert forall k :: k != key ==> (k in t <==> k in u) && (k in t ==> t[k] == u[k]);
    assert (t - {key}).Keys == (u - {key}).Keys;
  }

  // ---------------------------------------------------------------- absolute writes

  datatype Write = Put(key: Key, value: string) | Remove(key: Key)

  function ApplyWrite(w: Write, t: Table): Table {
    match w
    case Put(k, v) => t[k := v]
    case Remove(k) => t - {k}
  }

  /** The commands on which the two interpreters agree on every table: PUT with a value
      not ending in a blank and DELETE of one key. */
  predicate Plain(command: string) {
    LockKey(command).Some? &&
    ((UpToBlank(command) == "PUT" && ' ' in ColumnAndRest(command) && !EndsInBlank(Values(command))) ||
     (UpToBlank(command) == "DELETE" && ' ' !in ColumnAndRest(command)))
  }

  function Meaning(command: string): Write {
    if UpToBlank(command) == "PUT" then Put(AbortKey(command), Values(command))
    else Remove(AbortKey(command))
  }

  /** Both interpreters do the one write the text stands for. */
  lemma PlainMeans(command: string, t: Table)
    requires Plain(command)
    ensures Execute(command, t) == Some(ApplyWrite(Meaning(command), t))
    ensures Replay(command, t) == Some(ApplyWrite(Meaning(command), t))
  {
    if UpToBlank(command) == "PUT" {
      ExecutePut(command, t);
      ReplayPut(command, t);
    } else {
      ExecuteDelete(command, t);
      ReplayDelete(command, t);
      Cut(ColumnAndRest(command));
    }
  }
}
