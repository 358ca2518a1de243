/**
 * The generic repository: one database table reached through a session that
 * commits after every call.  A table is the sequence of its rows in insertion
 * order; its primary key is the function `key`, and a commit that would give
 * two rows the same key fails with an integrity error and stores nothing.
 */
module Store {
  import opened Wrappers

  datatype DbError =
    | IntegrityError   // a commit would break the primary key
    | NotPersisted     // delete of an object the table does not hold
    | PendingRollback  // any use of a session left inactive by a failed commit

  /** No two rows share a key. */
  predicate UniqueKeys<T, K(==)>(rows: seq<T>, key: T -> K)
  {
    forall i, j :: 0 <= i < j < |rows| ==> key(rows[i]) != key(rows[j])
  }

  /** `objs` can be committed on top of `rows`: their keys are pairwise distinct and new. */
  predicate Admits<T, K(==)>(rows: seq<T>, objs: seq<T>, key: T -> K)
  {
    && UniqueKeys(objs, key)
    && forall i, j :: 0 <= i < |rows| && 0 <= j < |objs| ==> key(rows[i]) != key(objs[j])
  }

  /** Over a table that keeps its key, a batch is admitted exactly when the table stays keyed after it. */
  lemma AdmitsIffStaysUnique<T, K>(rows: seq<T>, objs: seq<T>, key: T -> K)
    requires UniqueKeys(rows, key)
    ensures Admits(rows, objs, key) <==> UniqueKeys(rows + objs, key)
  {
    var all := rows + objs;
    if Admits(rows, objs, key) {
      forall i, j | 0 <= i < j < |all| ensures key(all[i]) != key(all[j]) {
        if j < |rows| {
        } else if i < |rows| {
          assert all[j] == objs[j - |rows|];
        } else {
          assert all[i] == objs[i - |rows|] && all[j] == objs[j - |rows|];
        }
      }
    }
    if UniqueKeys(all, key) {
      forall i, j | 0 <= i < j < |objs| ensures key(objs[i]) != key(objs[j]) {
        assert objs[i] == all[|rows| + i] && objs[j] == all[|rows| + j];
      }
      forall i, j | 0 <= i < |rows| && 0 <= j < |objs| ensures key(rows[i]) != key(objs[j]) {
        assert rows[i] == all[i] && objs[j] == all[|rows| + j];
      }
    }
  }

  /**
   * The session as the code actually leaves it: a commit that breaks the key
   * stores nothing but makes the session inactive, and every later call on it
   * fails until someone rolls it back, which nothing in the code does.
   */
  datatype Session<T> = Session(rows: seq<T>, inactive: bool)

  function SessionCommit<T, K(==)>(s: Session<T>, objs: seq<T>, key: T -> K): (r: (Session<T>, Result<seq<T>, DbError>))
    ensures r.1.Success? <==> !s.inactive && Admits(s.rows, objs, key)
    ensures r.1.Success? ==> r.1.value == objs && r.0.rows == s.rows + objs
    ensures r.1.Failure? ==> r.0.rows == s.rows
    ensures r.0.inactive <==> r.1.Failure?
    ensures s.inactive ==> r.1 == Failure(PendingRollback)
  {
    if s.inactive then (s, Failure(PendingRollback))
    else if Admits(s.rows, objs, key) then (Session(s.rows + objs, false), Success(objs))
    else (Session(s.rows, true), Failure(IntegrityError))
  }

  /**
   * As written, one clashing commit makes a later commit fail even when that
   * commit could be stored: an unrelated batch on the same session is lost.
   */
  lemma ClashBlocksLaterCommits<T, K>(rows: seq<T>, bad: seq<T>, good: seq<T>, key: T -> K)
    requires !Admits(rows, bad, key) && Admits(rows, good, key)
    ensures var (s1, first) := SessionCommit(Session(rows, false), bad, key);
      && first == Failure(IntegrityError)
      && SessionCommit(s1, good, key).1 == Failure(PendingRollback)
      && SessionCommit(Session(rows, false), good, key).1 == Success(good)
  {
  }

  /** A concrete instance: rows keyed by themselves, a repeated row, then a new one. */
  lemma ClashBlocksLaterCommitsExample()
    ensures var key := (x: int) => x;
      var (s1, _) := SessionCommit(Session([1], false), [1], key);
      SessionCommit(s1, [2], key).1 == Failure(PendingRollback)
  {
    var key := (x: int) => x;
    assert !Admits([1], [1], key) by { assert key([1][0]) == key([1][0]); }
  }

  /** `rows` with its element at `i` taken out. */
  function RemoveAt<T>(rows: seq<T>, i: nat): (r: seq<T>)
    requires i < |rows|
    ensures |r| == |rows| - 1
    ensures forall k :: 0 <= k < i ==> r[k] == rows[k]
    ensures forall k :: i <= k < |r| ==> r[k] == rows[k + 1]
  {
    rows[..i] + rows[i + 1..]
  }

  /** Taking a row out keeps every other row and the key. */
  lemma RemoveAtKeepsOthers<T, K>(rows: seq<T>, i: nat, key: T -> K)
    requires i < |rows| && UniqueKeys(rows, key)
    ensures multiset(RemoveAt(rows, i)) == multiset(rows) - multiset{rows[i]}
    ensures UniqueKeys(RemoveAt(rows, i), key)
  {
    assert rows == rows[..i] + [rows[i]] + rows[i + 1..];
    assert multiset(rows) == multiset(rows[..i]) + multiset{rows[i]} + multiset(rows[i + 1..]);
    var r := RemoveAt(rows, i);
    forall a, b | 0 <= a < b < |r| ensures key(r[a]) != key(r[b]) {
      var a' := if a < i then a else a + 1;
      var b' := if b < i then b else b + 1;
      assert r[a] == rows[a'] && r[b] == rows[b'] && a' < b';
    }
  }

  /** The first position of `x` in `rows`. */
  function IndexOf<T(==)>(rows: seq<T>, x: T): (i: nat)
    requires x in rows
    ensures i < |rows| && rows[i] == x
    ensures forall k :: 0 <= k < i ==> rows[k] != x
  {
    if rows[0] == x then 0 else 1 + IndexOf(rows[1..], x)
  }

  /** A table of rows of type `T` whose primary key is `key`. */
  class Table<T(==), K(==)> {
    const key: T -> K
    var rows: seq<T>

    ghost predicate Valid()
      reads this
    {
      UniqueKeys(rows, key)
    }

    /** A repository over a table that already holds `rows0`, whose keys the database keeps unique. */
    constructor (key: T -> K, rows0: seq<T>)
      requires UniqueKeys(rows0, key)
      ensures Valid() && this.key == key && rows == rows0
    {
      this.key := key;
      rows := rows0;
    }

    /** Adds one object and commits; returns it. */
    method Create(obj: T) returns (r: Result<T, DbError>)
      requires Valid()
      modifies this
      ensures Valid()
      ensures Admits(old(rows), [obj], key) ==> r == Success(obj) && rows == old(rows) + [obj]
      ensures !Admits(old(rows), [obj], key) ==> r == Failure(IntegrityError) && rows == old(rows)
    {
      if Admits(rows, [obj], key) {
        AdmitsIffStaysUnique(rows, [obj], key);
        rows := rows + [obj];
        r := Success(obj);
      } else {
        r := Failure(IntegrityError);
      }
    }

    /** Adds all objects and commits; returns the same list. */
    method CreateMany(objs: seq<T>) returns (r: Result<seq<T>, DbError>)
      requires Valid()
      modifies this
      ensures Valid()
      ensures Admits(old(rows), objs, key) ==> r == Success(objs) && rows == old(rows) + objs
      ensures !Admits(old(rows), objs, key) ==> r == Failure(IntegrityError) && rows == old(rows)
    {
      if Admits(rows, objs, key) {
        AdmitsIffStaysUnique(rows, objs, key);
        rows := rows + objs;
        r := Success(objs);
      } else {
        r := Failure(IntegrityError);
      }
    }

    /** Every stored row. */
    method GetAll() returns (all: seq<T>)
      requires Valid()
      ensures all == rows
      ensures UniqueKeys(all, key)
    {
      all := rows;
    }

    /** Commits a change already made to `obj` in memory; rows are values here, so nothing changes. */
    method Update(obj: T) returns (r: T)
      requires Valid()
      ensures r == obj
    {
      r := obj;
    }

    /** Deletes the stored object `obj` and commits. */
    method Delete(obj: T) returns (r: Outcome<DbError>)
      requires Valid()
      modifies this
      ensures Valid()
      ensures obj in old(rows) ==> r == Pass && exists i :: 0 <= i < |old(rows)| && old(rows)[i] == obj && rows == RemoveAt(old(rows), i)
      ensures obj in old(rows) ==> multiset(rows) == multiset(old(rows)) - multiset{obj}
      ensures obj !in old(rows) ==> r == Fail(NotPersisted) && rows == old(rows)
    {
      if obj in rows {
        var i := IndexOf(rows, obj);
        RemoveAtKeepsOthers(rows, i, key);
        rows := RemoveAt(rows, i);
        r := Pass;
      } else {
        r := Fail(NotPersisted);
      }
    }
  }
}
