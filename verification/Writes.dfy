/** Sequences of absolute writes (PUT and DELETE): what a sequence leaves at a key, and what
    replaying a part of a history over a later table does. */
module Writes {
  import opened Text
  import opened Commands

  function Lookup(t: Table, k: Key): Option<string> {
    if k in t then Some(t[k]) else None
  }

  /** The writes one after the other, first one first. */
  function ApplyAll(ws: seq<Write>, t: Table): Table {
    if ws == [] then t else ApplyWrite(ws[|ws| - 1], ApplyAll(ws[..|ws| - 1], t))
  }

  function Written(w: Write): Option<string> {
    match w
    case Put(_, v) => Some(v)
    case Remove(_) => None
  }

  /** What the writes leave at a key: nothing if none touches it, else what the last one did. */
  function Effect(ws: seq<Write>, k: Key): Option<Option<string>> {
    if ws == [] then None
    else if ws[|ws| - 1].key == k then Some(Written(ws[|ws| - 1]))
    else Effect(ws[..|ws| - 1], k)
  }

  lemma {:induction false} LookupApplied(ws: seq<Write>, t: Table, k: Key)
    ensures Lookup(ApplyAll(ws, t), k) == match Effect(ws, k) case None => Lookup(t, k) case Some(v) => v
  {
    if ws != [] { LookupApplied(ws[..|ws| - 1], t, k); }
  }

  lemma {:induction false} EffectOfConcat(a: seq<Write>, b: seq<Write>, k: Key)
    ensures Effect(a + b, k) == if Effect(b, k).Some? then Effect(b, k) else Effect(a, k)
  {
    if b == [] {
      assert a + b == a;
    } else {
      assert (a + b)[..|a + b| - 1] == a + b[..|b| - 1];
      EffectOfConcat(a, b[..|b| - 1], k);
    }
  }

  /** Tables with the same bindings are equal. */
  lemma SameTable(t: Table, u: Table)
    requires forall k :: Lookup(t, k) == Lookup(u, k)
    ensures t == u
  {
    assert forall k :: k in t <==> Lookup(t, k).Some?;
    assert forall k :: k in u <==> Lookup(u, k).Some?;
    assert forall k | k in t :: Some(t[k]) == Lookup(t, k) == Lookup(u, k) == Some(u[k]);
  }

  lemma {:induction false} ApplyConcat(a: seq<Write>, b: seq<Write>, t: Table)
    ensures ApplyAll(a + b, t) == ApplyAll(b, ApplyAll(a, t))
  {
    if b == [] {
      assert a + b == a;
    } else {
      assert (a + b)[..|a + b| - 1] == a + b[..|b| - 1];
      ApplyConcat(a, b[..|b| - 1], t);
    }
  }

  // ---------------------------------------------------------------- replaying a part of a history

  /** Replaying writes that were already applied changes nothing: the log queue is not drained
      at a checkpoint, so the log may repeat what the checkpoint has. */
  lemma {:induction false} ReplayIsNoOp(before: seq<Write>, again: seq<Write>, t: Table)
    ensures ApplyAll(again, ApplyAll(before + again, t)) == ApplyAll(before + again, t)
  {
    forall k ensures Lookup(ApplyAll(again, ApplyAll(before + again, t)), k) == Lookup(ApplyAll(before + again, t), k) {
      LookupApplied(again, ApplyAll(before + again, t), k);
      LookupApplied(before + again, t, k);
      EffectOfConcat(before, again, k);
    }
    SameTable(ApplyAll(again, ApplyAll(before + again, t)), ApplyAll(before + again, t));
  }

  /** A log that overlaps the checkpoint and goes on behind it: replayed over the checkpoint it
      gives the table at its own end. */
  lemma {:induction false} ReplayOverlap(before: seq<Write>, again: seq<Write>, fresh_: seq<Write>, t: Table)
    ensures ApplyAll(again + fresh_, ApplyAll(before + again, t)) == ApplyAll(before + again + fresh_, t)
  {
    ReplayIsNoOp(before, again, t);
    ApplyConcat(again, fresh_, ApplyAll(before + again, t));
    ApplyConcat(before + again, fresh_, t);
  }

  /** No key of the replayed part is left different by what came later. */
  ghost predicate NotOverwritten(part: seq<Write>, later: seq<Write>) {
    forall k :: Effect(part, k).Some? && Effect(later, k).Some? ==> Effect(later, k) == Effect(part, k)
  }

  /** A log that ends before the checkpoint: replaying it over the checkpoint keeps the table
      exactly when no key it writes was left different by the writes behind it. */
  lemma {:induction false} ReplayRevertsIff(before: seq<Write>, part: seq<Write>, later: seq<Write>, t: Table)
    ensures ApplyAll(part, ApplyAll(before + part + later, t)) == ApplyAll(before + part + later, t)
            <==> NotOverwritten(part, later)
  {
    var now := ApplyAll(before + part + later, t);
    var after := ApplyAll(part, now);
    forall k
      ensures Lookup(after, k) == Lookup(now, k) <==>
              (Effect(part, k).Some? && Effect(later, k).Some? ==> Effect(later, k) == Effect(part, k))
    {
      LookupApplied(part, now, k);
      LookupApplied(before + part + later, t, k);
      EffectOfConcat(before + part, later, k);
      EffectOfConcat(before, part, k);
    }
    if NotOverwritten(part, later) {
      SameTable(after, now);
    }
  }

  /** Replaying writes over the empty table instead of over t: the same exactly when they write
      every key that t binds. */
  lemma {:induction false} ReplayOverNothingIff(ws: seq<Write>, t: Table)
    ensures ApplyAll(ws, map[]) == ApplyAll(ws, t) <==> forall k :: k in t ==> Effect(ws, k).Some?
  {
    var none, all := ApplyAll(ws, map[]), ApplyAll(ws, t);
    forall k
      ensures Lookup(none, k) == Lookup(all, k) <==> (k in t ==> Effect(ws, k).Some?)
    {
      LookupApplied(ws, map[], k);
      LookupApplied(ws, t, k);
    }
    if forall k :: k in t ==> Effect(ws, k).Some? {
      SameTable(none, all);
    }
  }

  // ---------------------------------------------------------------- messages that stand for writes

  predicate AllPlain(messages: seq<string>) {
    forall i :: 0 <= i < |messages| ==> Plain(messages[i])
  }

  function Meanings(messages: seq<string>): (ws: seq<Write>)
    ensures |ws| == |messages|
    ensures forall i :: 0 <= i < |ws| ==> ws[i] == Meaning(messages[i])
  {
    if messages == [] then [] else [Meaning(messages[0])] + Meanings(messages[1..])
  }

  /** Replaying plain messages applies their writes. */
  lemma {:induction false} ReplayApplies(messages: seq<string>, t: Table)
    requires AllPlain(messages)
    ensures ReplayAll(messages, t) == Some(ApplyAll(Meanings(messages), t))
    decreases |messages|
  {
    if messages != [] {
      PlainMeans(messages[0], t);
      var w := Meaning(messages[0]);
      ReplayApplies(messages[1..], ApplyWrite(w, t));
      ApplyConcat([w], Meanings(messages[1..]), t);
      assert ApplyAll([w], t) == ApplyWrite(w, t) by { assert [w][..0] == []; }
    }
  }
}
