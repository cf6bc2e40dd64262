/** What the model assumes of an honest backend when it states end-to-end properties. */
module Backend {

  function Min(a: int, b: int): int
  {
    if a <= b then a else b
  }

  /** A SOQL `LIMIT limit OFFSET offset` over an ordered remote collection. */
  function Slice<T>(db: seq<T>, offset: nat, limit: nat): (r: seq<T>)
    ensures |r| <= limit
    ensures offset <= |db| ==> r == db[offset..Min(offset + limit, |db|)]
  {
    db[Min(offset, |db|)..Min(offset + limit, |db|)]
  }

  /** Appending the next slice to a prefix gives the next, longer prefix. */
  lemma SliceExtendsPrefix<T>(db: seq<T>, offset: nat, limit: nat)
    requires offset <= |db|
    ensures db[..offset] + Slice(db, offset, limit) == db[..Min(offset + limit, |db|)]
  {
    assert db[..offset] + db[offset..Min(offset + limit, |db|)] == db[..Min(offset + limit, |db|)];
  }
}
