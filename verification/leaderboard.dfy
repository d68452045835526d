/** The leaderboard endpoint (api/leaderboard.ts): every stored user record,
    best score first, at most fifty of them. */
module Leaderboard {
  import opened UserApi

  /** How many records the leaderboard returns at most. */
  const TopCount: nat := 50

  /** A record's rank key: its score, a missing score counting as zero. Every
      record of this model carries a score, so the key is the score itself. */
  function Rank(u: UserRecord): int {
    u.score
  }

  /** `u` is the value of one of the listed keys. */
  ghost predicate Listed(store: Store, keys: seq<string>, u: UserRecord) {
    exists k :: k in keys && k in store && store[k] == u
  }

  /** The records behind `keys`, in key order. A key whose value has gone
      (`kv.get` yielding null) contributes nothing. */
  function Collect(store: Store, keys: seq<string>): (r: seq<UserRecord>)
    ensures |r| == Resolved(store, keys)
    ensures forall i :: 0 <= i < |r| ==> Listed(store, keys, r[i])
    ensures forall k :: k in keys && k in store ==> store[k] in r
    ensures forall u :: multiset(r)[u] == Hits(store, keys, u)
    decreases |keys|
  {
    if |keys| == 0 then []
    else
      var rest := Collect(store, keys[1..]);
      assert forall i :: 0 <= i < |rest| ==> Listed(store, keys, rest[i]) by {
        forall i | 0 <= i < |rest| ensures Listed(store, keys, rest[i]) {
          assert Listed(store, keys[1..], rest[i]);
          var k :| k in keys[1..] && k in store && store[k] == rest[i];
          assert k in keys;
        }
      }
      assert forall k :: k in keys && k in store && k != keys[0] ==> k in keys[1..] by {
        assert keys == [keys[0]] + keys[1..];
      }
      if keys[0] in store then [store[keys[0]]] + rest else rest
  }

  /** How many of the listed keys hold the record `u`: the number of copies of
      `u` the leaderboard collects. */
  function Hits(store: Store, keys: seq<string>, u: UserRecord): nat
    decreases |keys|
  {
    if |keys| == 0 then 0
    else (if keys[0] in store && store[keys[0]] == u then 1 else 0) + Hits(store, keys[1..], u)
  }

  /** The number of keys whose value is present. */
  function Resolved(store: Store, keys: seq<string>): nat
    decreases |keys|
  {
    if |keys| == 0 then 0
    else (if keys[0] in store then 1 else 0) + Resolved(store, keys[1..])
  }

  /** Best score first. */
  predicate Descending(s: seq<UserRecord>) {
    forall i, j :: 0 <= i < j < |s| ==> Rank(s[i]) >= Rank(s[j])
  }

  /** Put `u` after every record that ranks strictly higher and before the
      rest, so records of equal rank keep their relative order. */
  function Insert(u: UserRecord, s: seq<UserRecord>): (r: seq<UserRecord>)
    ensures multiset(r) == multiset(s) + multiset{u}
    ensures |r| == |s| + 1
    decreases |s|
  {
    if |s| == 0 || Rank(s[0]) <= Rank(u) then [u] + s
    else
      assert s == [s[0]] + s[1..];
      [s[0]] + Insert(u, s[1..])
  }

  lemma {:induction false} InsertKeepsDescending(u: UserRecord, s: seq<UserRecord>)
    requires Descending(s)
    ensures Descending(Insert(u, s))
    decreases |s|
  {
    if |s| > 0 && Rank(s[0]) > Rank(u) {
      var tail := s[1..];
      assert Descending(tail) by {
        forall i, j | 0 <= i < j < |tail| ensures Rank(tail[i]) >= Rank(tail[j]) {
          assert tail[i] == s[i + 1] && tail[j] == s[j + 1];
        }
      }
      InsertKeepsDescending(u, tail);
      var rest := Insert(u, tail);
      forall k | 0 <= k < |rest| ensures Rank(s[0]) >= Rank(rest[k]) {
        assert rest[k] in multiset(rest);
        assert rest[k] == u || rest[k] in multiset(tail);
        if rest[k] != u {
          var m :| 0 <= m < |tail| && tail[m] == rest[k];
          assert s[m + 1] == rest[k];
        }
      }
      ConsKeepsDescending(s[0], rest);
    } else if |s| > 0 {
      ConsKeepsDescending(u, s);
    }
  }

  /** A record ranking at least as high as everything in a descending list
      can go in front of it. */
  lemma ConsKeepsDescending(x: UserRecord, s: seq<UserRecord>)
    requires Descending(s)
    requires forall k :: 0 <= k < |s| ==> Rank(x) >= Rank(s[k])
    ensures Descending([x] + s)
  {
    var r := [x] + s;
    forall i, j | 0 <= i < j < |r| ensures Rank(r[i]) >= Rank(r[j]) {
      if i == 0 {
        assert r[j] == s[j - 1];
      } else {
        assert r[i] == s[i - 1] && r[j] == s[j - 1];
      }
    }
  }

  /** A stable sort of the records by descending rank (the comparator
      `(b.score || 0) - (a.score || 0)` under JavaScript's stable sort). */
  function SortByRank(s: seq<UserRecord>): (r: seq<UserRecord>)
    ensures Descending(r)
    ensures multiset(r) == multiset(s)
    ensures |r| == |s|
    decreases |s|
  {
    if |s| == 0 then []
    else
      var rest := SortByRank(s[1..]);
      InsertKeepsDescending(s[0], rest);
      assert s == [s[0]] + s[1..];
      Insert(s[0], rest)
  }

  function Min(a: nat, b: nat): nat {
    if a <= b then a else b
  }

  /** The top of the board: the best `TopCount` records, best first. */
  function Top(users: seq<UserRecord>): (r: seq<UserRecord>)
    ensures Descending(r)
    ensures r <= SortByRank(users)
    ensures |r| == Min(TopCount, |users|)
    ensures multiset(r) <= multiset(users)
    ensures forall u, v :: u in multiset(users) - multiset(r) && v in r ==> Rank(u) <= Rank(v)
  {
    var sorted := SortByRank(users);
    var n := Min(TopCount, |sorted|);
    PrefixOutranksRest(sorted, n);
    sorted[..n]
  }

  /** In a descending sequence, everything cut off after the first `n`
      records ranks no higher than any record kept. */
  lemma PrefixOutranksRest(sorted: seq<UserRecord>, n: nat)
    requires Descending(sorted) && n <= |sorted|
    ensures multiset(sorted[..n]) <= multiset(sorted)
    ensures forall u, v :: u in multiset(sorted) - multiset(sorted[..n]) && v in sorted[..n] ==> Rank(u) <= Rank(v)
  {
    var r := sorted[..n];
    assert sorted == r + sorted[n..];
    assert multiset(sorted) == multiset(r) + multiset(sorted[n..]);
    forall u, v | u in multiset(sorted) - multiset(r) && v in r ensures Rank(u) <= Rank(v) {
      assert u in multiset(sorted[n..]);
      var j :| 0 <= j < |sorted[n..]| && sorted[n..][j] == u;
      var i :| 0 <= i < |r| && r[i] == v;
      assert sorted[n + j] == u && sorted[i] == v;
    }
  }

  datatype BoardResponse = Board(status: int, entries: seq<UserRecord>) | BoardError(status: int, message: string)

  /** The handler. `keys` is what listing the `user:*` keys returned, in the
      store's order; `fault` says that some store access failed. */
  function Handle(store: Store, keys: seq<string>, fault: bool): (r: BoardResponse)
    ensures fault ==> r == BoardError(500, "db error")
    ensures !fault ==> r.Board? && r.status == 200
    ensures !fault ==> Descending(r.entries)
    ensures !fault ==> |r.entries| == Min(TopCount, Resolved(store, keys))
    ensures !fault ==> multiset(r.entries) <= multiset(Collect(store, keys))
    ensures !fault ==> forall i :: 0 <= i < |r.entries| ==> Listed(store, keys, r.entries[i])
    ensures !fault ==> forall u, v :: u in multiset(Collect(store, keys)) - multiset(r.entries) && v in r.entries ==> Rank(u) <= Rank(v)
  {
    if fault then BoardError(500, "db error")
    else
      var users := Collect(store, keys);
      var top := Top(users);
      forall i | 0 <= i < |top| ensures Listed(store, keys, top[i]) {
        assert top[i] in multiset(top);
        assert top[i] in multiset(users);
        var m :| 0 <= m < |users| && users[m] == top[i];
      }
      Board(200, top)
  }

  /** With at most fifty stored records, every one of them is on the board. */
  lemma SmallBoardShowsEveryone(store: Store, keys: seq<string>)
    requires Resolved(store, keys) <= TopCount
    ensures multiset(Handle(store, keys, false).entries) == multiset(Collect(store, keys))
  {
    var users := Collect(store, keys);
    var top := Top(users);
    assert |top| == |users|;
    assert multiset(top) <= multiset(users);
    assert |multiset(top)| == |multiset(users)|;
    MultisetSubsetSameSize(multiset(top), multiset(users));
  }

  lemma MultisetSubsetSameSize<T>(a: multiset<T>, b: multiset<T>)
    requires a <= b && |a| == |b|
    ensures a == b
  {
    var d := b - a;
    assert b == a + d;
    assert |b| == |a| + |d|;
    assert |d| == 0;
  }
}
