/**
 * The pain entry record (types/index.ts) and the one list operation that the
 * storage layer and the context share: keeping the entries whose id differs
 * from a given one (`entries.filter(entry => entry.id !== id)`).
 */
module Entries {

  /** One recorded pain observation. `painLevel` is documented as 0..10 but not
      enforced by the record; `timestamp` is milliseconds since the epoch. */
  datatype Entry = Entry(id: string, bodyPart: string, painLevel: int, timestamp: int)

  /** The documented domain of a pain level. */
  predicate InLevelRange(level: int) {
    0 <= level <= 10
  }

  /** No two entries of `s` share an id. */
  predicate UniqueIds(s: seq<Entry>) {
    forall i, j :: 0 <= i < j < |s| ==> s[i].id != s[j].id
  }

  /** Some entry of `s` has id `id`. */
  predicate HasId(s: seq<Entry>, id: string) {
    exists i :: 0 <= i < |s| && s[i].id == id
  }

  /** The number of entries of `s` whose id is `id`. */
  function CountId(s: seq<Entry>, id: string): nat {
    if s == [] then 0 else (if s[0].id == id then 1 else 0) + CountId(s[1..], id)
  }

  /** `s` filtered to the entries whose id is not `id`, in their original order. */
  function Without(s: seq<Entry>, id: string): (r: seq<Entry>)
    ensures |r| <= |s|
    ensures forall e :: e in r <==> e in s && e.id != id
  {
    if s == [] then []
    else if s[0].id == id then Without(s[1..], id)
    else [s[0]] + Without(s[1..], id)
  }

  /** Filtering distributes over concatenation; with the one-entry case this
      says that the filter keeps the surviving entries in their order. */
  lemma {:induction false} WithoutAppend(a: seq<Entry>, b: seq<Entry>, id: string)
    ensures Without(a + b, id) == Without(a, id) + Without(b, id)
  {
    if a == [] {
      assert a + b == b;
    } else {
      assert (a + b)[0] == a[0];
      assert (a + b)[1..] == a[1..] + b;
      WithoutAppend(a[1..], b, id);
    }
  }

  /** Removing an id that no entry carries changes nothing. */
  lemma {:induction false} WithoutAbsent(s: seq<Entry>, id: string)
    ensures !HasId(s, id) ==> Without(s, id) == s
  {
    if s != [] && !HasId(s, id) {
      assert s[0].id != id;
      assert !HasId(s[1..], id) by {
        forall i | 0 <= i < |s[1..]| ensures s[1..][i].id != id {
          assert s[1..][i] == s[i + 1];
        }
      }
      WithoutAbsent(s[1..], id);
      assert s == [s[0]] + s[1..];
    }
  }

  /** The filter removes exactly the entries carrying `id`. */
  lemma {:induction false} WithoutLength(s: seq<Entry>, id: string)
    ensures |Without(s, id)| == |s| - CountId(s, id)
  {
    if s != [] {
      WithoutLength(s[1..], id);
    }
  }

  /** Filtering twice by the same id is filtering once. */
  lemma {:induction false} WithoutIdempotent(s: seq<Entry>, id: string)
    ensures Without(Without(s, id), id) == Without(s, id)
  {
    if s != [] {
      WithoutIdempotent(s[1..], id);
      if s[0].id != id {
        var t := Without(s[1..], id);
        assert ([s[0]] + t)[0] == s[0];
        assert ([s[0]] + t)[1..] == t;
      }
    }
  }

  /** When ids are unique and entry `k` carries `id`, removing `id` deletes
      exactly that entry and keeps the others in order. */
  lemma {:induction false} WithoutUnique(s: seq<Entry>, id: string, k: nat)
    requires UniqueIds(s)
    requires k < |s| && s[k].id == id
    ensures Without(s, id) == s[..k] + s[k + 1..]
    ensures |Without(s, id)| == |s| - 1
  {
    assert s == s[..k] + [s[k]] + s[k + 1..];
    WithoutAppend(s[..k] + [s[k]], s[k + 1..], id);
    WithoutAppend(s[..k], [s[k]], id);
    assert !HasId(s[..k], id) by {
      forall i | 0 <= i < k ensures s[..k][i].id != id {
        assert s[..k][i] == s[i];
      }
    }
    assert !HasId(s[k + 1..], id) by {
      var rest := s[k + 1..];
      forall i | 0 <= i < |rest| ensures rest[i].id != id {
        assert rest[i] == s[k + 1 + i];
      }
    }
    WithoutAbsent(s[..k], id);
    WithoutAbsent(s[k + 1..], id);
    assert [s[k]][1..] == [];
  }

  /** Appending an entry whose id is new keeps ids unique. */
  lemma AppendFreshKeepsUnique(s: seq<Entry>, e: Entry)
    requires UniqueIds(s) && !HasId(s, e.id)
    ensures UniqueIds(s + [e])
  {
  }

  /** Removing entries keeps ids unique. */
  lemma {:induction false} WithoutKeepsUnique(s: seq<Entry>, id: string)
    requires UniqueIds(s)
    ensures UniqueIds(Without(s, id))
  {
    if s != [] {
      assert UniqueIds(s[1..]) by {
        forall i, j | 0 <= i < j < |s[1..]| ensures s[1..][i].id != s[1..][j].id {
          assert s[1..][i] == s[i + 1] && s[1..][j] == s[j + 1];
        }
      }
      WithoutKeepsUnique(s[1..], id);
      if s[0].id != id {
        var t := Without(s[1..], id);
        forall i, j | 0 <= i < j < |[s[0]] + t| ensures ([s[0]] + t)[i].id != ([s[0]] + t)[j].id {
          if i == 0 {
            assert ([s[0]] + t)[j] == t[j - 1];
            assert t[j - 1] in s[1..];
          } else {
            assert ([s[0]] + t)[i] == t[i - 1] && ([s[0]] + t)[j] == t[j - 1];
          }
        }
      }
    }
  }
}
