// The per-team semantic cache: a capped newest-first list ranked by cosine.
module SemanticCache {
  import opened Domain
  import opened Cosine

  datatype Entry = Entry(embedding: Vector, prompt: string, response: string, usage: TokenUsage, servedBy: ProviderKind)

  // What a list element holds: an encoded entry, or bytes that do not decode.
  datatype Blob = Encoded(entry: Entry) | Corrupt

  datatype Match = Nothing | Best(entry: Entry, similarity: real)

  function Decoded(blobs: seq<Blob>): seq<Entry> {
    if blobs == [] then []
    else Decoded(blobs[..|blobs| - 1]) + if blobs[|blobs| - 1].Encoded? then [blobs[|blobs| - 1].entry] else []
  }

  // The first index of greatest similarity.
  ghost predicate IsNearest(root: real -> real, query: Vector, entries: seq<Entry>, i: int)
    requires IsSqrt(root)
  {
    && 0 <= i < |entries|
    && (forall j :: 0 <= j < |entries| ==>
         Similarity(root, query, entries[j].embedding) <= Similarity(root, query, entries[i].embedding))
    && (forall j :: 0 <= j < i ==>
         Similarity(root, query, entries[j].embedding) < Similarity(root, query, entries[i].embedding))
  }

  method NearestByCosine(root: real -> real, query: Vector, entries: seq<Entry>) returns (best: int, bestSim: real)
    requires IsSqrt(root)
    ensures if entries == [] then best == -1 && bestSim == 0.0
            else IsNearest(root, query, entries, best) && bestSim == Similarity(root, query, entries[best].embedding)
  {
    best, bestSim := -1, 0.0;
    for i := 0 to |entries|
      invariant i == 0 ==> best == -1 && bestSim == 0.0
      invariant i > 0 ==> IsNearest(root, query, entries[..i], best)
      invariant i > 0 ==> bestSim == Similarity(root, query, entries[best].embedding)
    {
      var sim := CosineSimilarity(root, query, entries[i].embedding);
      assert entries[..i + 1] == entries[..i] + [entries[i]];
      if best == -1 || sim > bestSim { best, bestSim := i, sim; }
    }
    assert entries[..|entries|] == entries;
  }

  // The entry at `i` is nearest, and is what `m` reports.
  ghost predicate IsBest(root: real -> real, query: Vector, entries: seq<Entry>, i: int, m: Match)
    requires IsSqrt(root)
  {
    IsNearest(root, query, entries, i) && m == Best(entries[i], Similarity(root, query, entries[i].embedding))
  }

  // What a lookup over a list answers.
  ghost predicate Answers(root: real -> real, query: Vector, blobs: seq<Blob>, m: Match)
    requires IsSqrt(root)
  {
    var entries := Decoded(blobs);
    if entries == [] then m == Nothing
    else exists i :: IsBest(root, query, entries, i, m)
  }

  // A lookup has one answer.
  lemma AnswerIsUnique(root: real -> real, query: Vector, blobs: seq<Blob>, m: Match, n: Match)
    requires IsSqrt(root) && Answers(root, query, blobs, m) && Answers(root, query, blobs, n)
    ensures m == n
  {
    var entries := Decoded(blobs);
    if entries != [] {
      var i :| IsBest(root, query, entries, i, m);
      var j :| IsBest(root, query, entries, j, n);
      assert i == j;
    }
  }

  lemma {:induction false} NearestExists(root: real -> real, query: Vector, entries: seq<Entry>) returns (i: int)
    requires IsSqrt(root) && entries != []
    ensures IsNearest(root, query, entries, i)
  {
    var n := |entries| - 1;
    i := n;
    if n > 0 {
      var j := NearestExists(root, query, entries[..n]);
      if Similarity(root, query, entries[n].embedding) <= Similarity(root, query, entries[j].embedding) { i := j; }
    }
  }

  ghost function TheAnswer(root: real -> real, query: Vector, blobs: seq<Blob>): (m: Match)
    requires IsSqrt(root)
    ensures Answers(root, query, blobs, m)
  {
    var entries := Decoded(blobs);
    if entries == [] then Nothing
    else
      assert exists i :: IsNearest(root, query, entries, i) by { var i := NearestExists(root, query, entries); }
      var i :| IsNearest(root, query, entries, i);
      var m := Best(entries[i], Similarity(root, query, entries[i].embedding));
      assert IsBest(root, query, entries, i, m);
      m
  }

  // ------------------------------------------------------------- the stored lists

  const KEY_PREFIX := "ai:cache:"
  const DEFAULT_MAX_ENTRIES := 256

  function Key(team: string): string { KEY_PREFIX + team }

  lemma KeysSeparateTeams(a: string, b: string)
    ensures Key(a) == Key(b) <==> a == b
  {
    assert Key(a)[|KEY_PREFIX|..] == a && Key(b)[|KEY_PREFIX|..] == b;
  }

  type Lists = map<string, seq<Blob>>

  function ListOf(lists: Lists, team: string): seq<Blob> { if Key(team) in lists then lists[Key(team)] else [] }

  function Capped(blobs: seq<Blob>, max: nat): seq<Blob> { if |blobs| <= max then blobs else blobs[..max] }

  function Pushed(lists: Lists, team: string, blob: Blob, max: nat): Lists {
    lists[Key(team) := Capped([blob] + ListOf(lists, team), max)]
  }

  class RedisCache {
    const maxEntries: nat
    var lists: Lists

    constructor (configured: int)
      ensures lists == map[] && maxEntries > 0
      ensures maxEntries == configured || (configured <= 0 && maxEntries == 256)
    {
      maxEntries := if configured <= 0 then DEFAULT_MAX_ENTRIES else configured;
      lists := map[];
    }

    // Push at the head and trim, in one transaction.
    method Store(team: string, entry: Entry, fails: bool) returns (ok: bool)
      modifies this
      ensures ok == !fails
      ensures lists == if fails then old(lists) else Pushed(old(lists), team, Encoded(entry), maxEntries)
    {
      if fails { return false; }
      var pushed := [Encoded(entry)] + ListOf(lists, team);
      lists := lists[Key(team) := if |pushed| <= maxEntries then pushed else pushed[..maxEntries]];
      return true;
    }

    method Lookup(root: real -> real, team: string, query: Vector) returns (m: Match)
      requires IsSqrt(root)
      ensures Answers(root, query, Capped(ListOf(lists, team), maxEntries), m)
    {
      var blobs := Capped(ListOf(lists, team), maxEntries);
      if |blobs| == 0 { return Nothing; }
      var entries := [];
      for i := 0 to |blobs|
        invariant entries == Decoded(blobs[..i])
      {
        assert blobs[..i + 1][..i] == blobs[..i];
        if blobs[i].Encoded? { entries := entries + [blobs[i].entry]; }
      }
      assert blobs[..|blobs|] == blobs;
      if |entries| == 0 { return Nothing; }
      var idx, sim := NearestByCosine(root, query, entries);
      m := Best(entries[idx], sim);
      assert IsBest(root, query, entries, idx, m);
    }
  }

  // -------------------------------------------------------------- the list as a history

  // A push by anyone, or the expiry of a team's key.
  datatype CacheOp = Push(team: string, blob: Blob) | Expire(team: string)

  function Applied(lists: Lists, op: CacheOp, max: nat): Lists {
    match op
    case Push(team, blob) => Pushed(lists, team, blob, max)
    case Expire(team) => lists - {Key(team)}
  }

  function After(ops: seq<CacheOp>, max: nat): Lists {
    if ops == [] then map[] else Applied(After(ops[..|ops| - 1], max), ops[|ops| - 1], max)
  }

  lemma AfterOne(ops: seq<CacheOp>, op: CacheOp, max: nat)
    ensures After(ops + [op], max) == Applied(After(ops, max), op, max)
  {
    assert (ops + [op])[..|ops|] == ops;
  }

  // What was pushed for a team since its key last expired, oldest first.
  function PushedSince(ops: seq<CacheOp>, team: string): seq<Blob> {
    if ops == [] then []
    else
      var before := PushedSince(ops[..|ops| - 1], team);
      var op := ops[|ops| - 1];
      if op.team != team then before else if op.Expire? then [] else before + [op.blob]
  }

  // `list` is the last min(n, max) of what was pushed, newest first.
  ghost predicate IsRecent(list: seq<Blob>, pushed: seq<Blob>, max: nat) {
    && |list| == (if |pushed| <= max then |pushed| else max)
    && forall j :: 0 <= j < |list| ==> list[j] == pushed[|pushed| - 1 - j]
  }

  lemma OneMorePush(list: seq<Blob>, pushed: seq<Blob>, blob: Blob, max: nat)
    requires max > 0 && IsRecent(list, pushed, max)
    ensures IsRecent(Capped([blob] + list, max), pushed + [blob], max)
  {
    var list', pushed' := Capped([blob] + list, max), pushed + [blob];
    forall j | 0 <= j < |list'|
      ensures list'[j] == pushed'[|pushed'| - 1 - j]
    {
      if j > 0 { assert list'[j] == list[j - 1]; }
    }
  }

  // A team's list is its last min(n, max) pushes, newest first, whatever other teams did.
  lemma {:induction false} ListIsRecentHistory(ops: seq<CacheOp>, team: string, max: nat)
    requires max > 0
    ensures IsRecent(ListOf(After(ops, max), team), PushedSince(ops, team), max)
    decreases |ops|
  {
    if ops != [] {
      var before, op := ops[..|ops| - 1], ops[|ops| - 1];
      ListIsRecentHistory(before, team, max);
      KeysSeparateTeams(op.team, team);
      if op.team == team && op.Push? {
        OneMorePush(ListOf(After(before, max), team), PushedSince(before, team), op.blob, max);
      }
    }
  }

  lemma {:induction false} DecodedMembers(blobs: seq<Blob>)
    ensures forall e :: e in Decoded(blobs) <==> Encoded(e) in blobs
  {
    if blobs != [] {
      DecodedMembers(blobs[..|blobs| - 1]);
      assert blobs == blobs[..|blobs| - 1] + [blobs[|blobs| - 1]];
    }
  }

  // The i-th decoded entry sits in the list where exactly i decodable elements precede it.
  lemma {:induction false} DecodedPosition(blobs: seq<Blob>, i: nat) returns (p: nat)
    requires i < |Decoded(blobs)|
    ensures p < |blobs| && blobs[p] == Encoded(Decoded(blobs)[i]) && Decoded(blobs[..p]) == Decoded(blobs)[..i]
  {
    var n := |blobs| - 1;
    if i < |Decoded(blobs[..n])| {
      p := DecodedPosition(blobs[..n], i);
      assert blobs[..n][..p] == blobs[..p];
    } else {
      p := n;
    }
  }

  // The answer in terms of the list itself.
  lemma AnswerInList(root: real -> real, query: Vector, list: seq<Blob>, m: Match) returns (p: nat)
    requires IsSqrt(root) && Answers(root, query, list, m)
    ensures m.Nothing? ==> forall b <- list :: b.Corrupt?
    ensures m.Best? ==>
      && p < |list| && list[p] == Encoded(m.entry) && m.similarity == Similarity(root, query, m.entry.embedding)
      && (forall b <- list :: b.Encoded? ==> Similarity(root, query, b.entry.embedding) <= m.similarity)
      && (forall b <- list[..p] :: b.Encoded? ==> Similarity(root, query, b.entry.embedding) < m.similarity)
  {
    var entries := Decoded(list);
    p := 0;
    DecodedMembers(list);
    forall b | b in list && b.Encoded? ensures b.entry in entries { assert Encoded(b.entry) in list; }
    if entries != [] {
      var i: nat :| IsBest(root, query, entries, i, m);
      p := DecodedPosition(list, i);
      DecodedMembers(list[..p]);
      forall b | b in list[..p] && b.Encoded? ensures Similarity(root, query, b.entry.embedding) < m.similarity {
        assert Encoded(b.entry) in list[..p];
        assert b.entry in entries[..i];
      }
    }
  }

  function LastOf(blobs: seq<Blob>, max: nat): seq<Blob> {
    if |blobs| <= max then blobs else blobs[|blobs| - max..]
  }

  // What a team's next lookup can see: its last `max` pushes, oldest first.
  function Retained(ops: seq<CacheOp>, team: string, max: nat): seq<Blob> { LastOf(PushedSince(ops, team), max) }

  // `kept` is the list read oldest first.
  ghost predicate Mirrors(list: seq<Blob>, kept: seq<Blob>) {
    |list| == |kept| && forall j :: 0 <= j < |list| ==> list[j] == kept[|kept| - 1 - j]
  }

  lemma MirrorMembers(list: seq<Blob>, kept: seq<Blob>)
    requires Mirrors(list, kept)
    ensures forall b :: b in list <==> b in kept
  {
    forall b ensures b in list <==> b in kept {
      if b in kept {
        var j :| 0 <= j < |kept| && kept[j] == b;
        assert list[|kept| - 1 - j] == b;
      }
    }
  }

  lemma MirrorSuffix(list: seq<Blob>, kept: seq<Blob>, p: nat)
    requires Mirrors(list, kept) && p <= |list|
    ensures Mirrors(list[..p], kept[|kept| - p..])
  {}

  lemma RetainedMirrors(ops: seq<CacheOp>, team: string, max: nat)
    requires max > 0
    ensures Mirrors(ListOf(After(ops, max), team), Retained(ops, team, max))
    ensures |Retained(ops, team, max)| <= max
  {
    ListIsRecentHistory(ops, team, max);
    RecentMirrors(ListOf(After(ops, max), team), PushedSince(ops, team), max);
  }

  lemma RecentMirrors(list: seq<Blob>, pushed: seq<Blob>, max: nat)
    requires IsRecent(list, pushed, max)
    ensures Mirrors(list, LastOf(pushed, max))
  {
    var kept := LastOf(pushed, max);
    var skipped := |pushed| - |kept|;
    forall j | 0 <= j < |list|
      ensures list[j] == kept[|kept| - 1 - j]
    {
      assert kept[|kept| - 1 - j] == pushed[skipped + (|kept| - 1 - j)];
    }
  }

  // The answer `m` is the element of `kept` at `at`: no other is nearer, and any newer one is strictly farther.
  ghost predicate NearestKept(root: real -> real, query: Vector, kept: seq<Blob>, m: Match, at: nat)
    requires IsSqrt(root) && m.Best?
  {
    && at < |kept| && kept[at] == Encoded(m.entry)
    && m.similarity == Similarity(root, query, m.entry.embedding)
    && (forall b <- kept :: b.Encoded? ==> Similarity(root, query, b.entry.embedding) <= m.similarity)
    && (forall b <- kept[at + 1..] :: b.Encoded? ==> Similarity(root, query, b.entry.embedding) < m.similarity)
  }

  lemma AnswerIsKept(root: real -> real, query: Vector, list: seq<Blob>, kept: seq<Blob>, m: Match)
    returns (at: nat)
    requires IsSqrt(root) && Answers(root, query, list, m) && Mirrors(list, kept)
    ensures m.Nothing? ==> forall b <- kept :: b.Corrupt?
    ensures m.Best? ==> NearestKept(root, query, kept, m, at)
  {
    var p := AnswerInList(root, query, list, m);
    MirrorMembers(list, kept);
    at := 0;
    if m.Best? {
      at := |kept| - 1 - p;
      MirrorSuffix(list, kept, p);
      MirrorMembers(list[..p], kept[at + 1..]);
    }
  }

  predicate Clears(m: Match, threshold: real) { m.Best? && m.similarity >= threshold }

  ghost predicate SomeClears(root: real -> real, query: Vector, kept: seq<Blob>, threshold: real)
    requires IsSqrt(root)
  {
    exists b <- kept :: b.Encoded? && Similarity(root, query, b.entry.embedding) >= threshold
  }

  // A request hits exactly when one of the team's retained, decodable pushes reaches the threshold. The entry
  // replayed is one of them, none is nearer, any newer one is strictly farther, and it has the query's length
  // and a non-zero norm.
  lemma HitsExactly(
      root: real -> real, query: Vector, ops: seq<CacheOp>, team: string, max: nat, threshold: real, m: Match)
    returns (at: nat)
    requires IsSqrt(root) && max > 0 && threshold > 0.0
    requires Answers(root, query, Capped(ListOf(After(ops, max), team), max), m)
    ensures Clears(m, threshold) <==> SomeClears(root, query, Retained(ops, team, max), threshold)
    ensures m.Best? ==> NearestKept(root, query, Retained(ops, team, max), m, at)
    ensures Clears(m, threshold) ==> Comparable(query, m.entry.embedding)
  {
    var list, kept := ListOf(After(ops, max), team), Retained(ops, team, max);
    RetainedMirrors(ops, team, max);
    at := AnswerIsKept(root, query, list, kept, m);
    if m.Best? {
      assert kept[at] in kept;
    }
  }

  // What is retained is in the list.
  lemma KeptIsListed(ops: seq<CacheOp>, team: string, max: nat, at: nat)
    requires max > 0 && at < |Retained(ops, team, max)|
    ensures Retained(ops, team, max)[at] in ListOf(After(ops, max), team)
  {
    RetainedMirrors(ops, team, max);
    MirrorMembers(ListOf(After(ops, max), team), Retained(ops, team, max));
    assert Retained(ops, team, max)[at] in Retained(ops, team, max);
  }
}
