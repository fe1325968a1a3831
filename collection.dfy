/**
 * The document-store query the controllers rely on:
 * `Model.find(filter).sort({ createdAt: -1 })` over a collection keyed by id.
 */
module Collection {
  import opened Records

  /** Newest first: `date` never increases along the sequence. */
  predicate SortedDesc<T>(s: seq<T>, date: T -> nat)
  {
    forall i, j :: 0 <= i < j < |s| ==> date(s[i]) >= date(s[j])
  }

  /** The place where an entry dated `d` goes: after every entry at least as new. */
  function InsertPosition<T>(s: seq<T>, d: nat, date: T -> nat): (i: nat)
    ensures i <= |s|
    ensures forall j :: 0 <= j < i ==> date(s[j]) >= d
    ensures i < |s| ==> date(s[i]) < d
  {
    if s == [] || date(s[0]) < d then 0 else 1 + InsertPosition(s[1..], d, date)
  }

  /** `s` with `x` inserted at position `i`. */
  function InsertAt<T>(s: seq<T>, i: nat, x: T): (t: seq<T>)
    requires i <= |s|
    ensures |t| == |s| + 1 && t[i] == x
    ensures forall j :: 0 <= j < i ==> t[j] == s[j]
    ensures forall j :: i < j < |t| ==> t[j] == s[j - 1]
  {
    s[..i] + [x] + s[i..]
  }

  lemma InsertKeepsSorted<T>(s: seq<T>, x: T, date: T -> nat)
    requires SortedDesc(s, date)
    ensures var i := InsertPosition(s, date(x), date);
      SortedDesc(InsertAt(s, i, x), date)
  {
    var i := InsertPosition(s, date(x), date);
    var t := InsertAt(s, i, x);
    forall a, b | 0 <= a < b < |t|
      ensures date(t[a]) >= date(t[b])
    {
      if a < i && b < i {
        assert t[a] == s[a] && t[b] == s[b];
      } else if a < i && b == i {
        assert t[a] == s[a];
      } else if a < i {
        assert t[a] == s[a] && t[b] == s[b - 1];
      } else if a == i {
        assert t[b] == s[b - 1];
        assert date(s[i]) < date(x);
      } else {
        assert t[a] == s[a - 1] && t[b] == s[b - 1];
      }
    }
  }

  /** `r` holds, position by position, the accepted entries of distinct ids `keys`. */
  ghost predicate Tracks<T>(m: map<ObjectId, T>, keep: T -> bool, r: seq<T>, keys: seq<ObjectId>)
  {
    && |keys| == |r|
    && (forall i :: 0 <= i < |r| ==> keys[i] in m && r[i] == m[keys[i]] && keep(m[keys[i]]))
    && (forall i, j :: 0 <= i < j < |keys| ==> keys[i] != keys[j])
  }

  /**
   * Inserting a fresh accepted id and its entry at the same position keeps the
   * two sequences in step and the ids distinct, and adds exactly that id.
   */
  lemma InsertPair<T>(m: map<ObjectId, T>, keep: T -> bool, r: seq<T>, keys: seq<ObjectId>, i: nat, k: ObjectId)
    requires Tracks(m, keep, r, keys) && i <= |r|
    requires k in m && keep(m[k]) && k !in keys
    ensures Tracks(m, keep, InsertAt(r, i, m[k]), InsertAt(keys, i, k))
    ensures forall q :: q in InsertAt(keys, i, k) <==> q in keys || q == k
  {
    var keys', r' := InsertAt(keys, i, k), InsertAt(r, i, m[k]);
    forall j | 0 <= j < |r'|
      ensures keys'[j] in m && r'[j] == m[keys'[j]] && keep(m[keys'[j]])
    {
      if j > i {
        assert keys'[j] == keys[j - 1] && r'[j] == r[j - 1];
      }
    }
    forall a, b | 0 <= a < b < |keys'|
      ensures keys'[a] != keys'[b]
    {
      if b < i {
      } else if b == i {
        assert keys'[a] == keys[a];
      } else if a == i {
        assert keys'[b] == keys[b - 1];
      } else if a < i {
        assert keys'[a] == keys[a] && keys'[b] == keys[b - 1];
      } else {
        assert keys'[a] == keys[a - 1] && keys'[b] == keys[b - 1];
      }
    }
    assert keys' == keys[..i] + [k] + keys[i..];
    assert keys == keys[..i] + keys[i..];
  }

  /**
   * The state of the selection after visiting every id outside `todo`: the
   * accepted entries seen so far, each with the id it was read from, newest first.
   */
  ghost predicate Selected<T>(m: map<ObjectId, T>, keep: T -> bool, date: T -> nat,
                              todo: set<ObjectId>, r: seq<T>, keys: seq<ObjectId>)
  {
    && todo <= m.Keys
    && Tracks(m, keep, r, keys)
    && (forall q :: q in keys ==> q !in todo)
    && (forall q :: q in m && keep(m[q]) && q !in todo ==> q in keys)
    && SortedDesc(r, date)
  }

  /** Visiting an id the selection rejects changes nothing but `todo`. */
  lemma SkipStep<T>(m: map<ObjectId, T>, keep: T -> bool, date: T -> nat,
                    todo: set<ObjectId>, r: seq<T>, keys: seq<ObjectId>, k: ObjectId)
    requires Selected(m, keep, date, todo, r, keys)
    requires k in todo && !keep(m[k])
    ensures Selected(m, keep, date, todo - {k}, r, keys)
  {
  }

  /** Visiting an id the selection accepts inserts its entry at the insertion point. */
  lemma KeepStep<T>(m: map<ObjectId, T>, keep: T -> bool, date: T -> nat,
                    todo: set<ObjectId>, r: seq<T>, keys: seq<ObjectId>, k: ObjectId)
    requires Selected(m, keep, date, todo, r, keys)
    requires k in todo && keep(m[k])
    ensures var i := InsertPosition(r, date(m[k]), date);
      Selected(m, keep, date, todo - {k}, InsertAt(r, i, m[k]), InsertAt(keys, i, k))
  {
    var i := InsertPosition(r, date(m[k]), date);
    InsertKeepsSorted(r, m[k], date);
    InsertPair(m, keep, r, keys, i, k);
  }

  /**
   * Selects the entries `keep` accepts and orders them newest first. `keys` is
   * the id each entry of the result was read from: every selected id exactly once.
   */
  method FindSorted<T>(m: map<ObjectId, T>, keep: T -> bool, date: T -> nat)
    returns (r: seq<T>, ghost keys: seq<ObjectId>)
    ensures |keys| == |r|
    ensures forall i :: 0 <= i < |r| ==> keys[i] in m && r[i] == m[keys[i]]
    ensures forall i, j :: 0 <= i < j < |keys| ==> keys[i] != keys[j]
    ensures forall k :: k in keys <==> k in m && keep(m[k])
    ensures SortedDesc(r, date)
  {
    r, keys := [], [];
    var todo := m.Keys;
    while todo != {}
      invariant Selected(m, keep, date, todo, r, keys)
      decreases todo
    {
      var k :| k in todo;
      if keep(m[k]) {
        KeepStep(m, keep, date, todo, r, keys, k);
        var i := InsertPosition(r, date(m[k]), date);
        r := InsertAt(r, i, m[k]);
        keys := InsertAt(keys, i, k);
      } else {
        SkipStep(m, keep, date, todo, r, keys, k);
      }
      todo := todo - {k};
    }
  }
}
